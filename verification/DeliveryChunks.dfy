/**
 The chunks of one answer, each of them and in their order: what the reader puts on the channel,
 read off the payloads.
 */
module DeliveryChunks {
  import opened Options
  import opened Protocol
  import opened Sse
  import opened Delivery
  import Failover
  import Think

  // ---------------------------------------------------------------- what the payloads ask for

  function Reason(text: string): seq<Chunk> {
    if text == "" then [] else [ReasoningChunk(text)]
  }

  function Text(text: string): seq<Chunk> {
    if text == "" then [] else [TextChunk(text)]
  }

  /** The usage of a payload, and the warning it gives rise to. */
  function Notes(e: Event): seq<Chunk> {
    if !e.Event? || e.usage.None? then []
    else [UsageChunk(e.usage.value)] + (if e.warn.Some? then [WarnChunk(e.warn.value)] else [])
  }

  /** The content of a payload that comes after `evs`; only MiniMax answers are split. */
  function Words(miniMax: bool, evs: seq<Event>, text: string): seq<Chunk> {
    if miniMax && text != "" then
      var o := Think.Pushed(Splitting(evs), text);
      Reason(o.thought) + Text(o.visible)
    else Text(text)
  }

  /** A fragment that comes after `ds` announces its call if it is the first with a name. */
  function Start(ds: seq<CallDelta>, d: CallDelta): seq<Chunk> {
    if NameOf(ds, d.index) == "" && d.name != "" then [StartChunk(Some(ToolCall(IdOf(ds + [d], d.index), "", d.name, "")))] else []
  }

  function Starts(ds: seq<CallDelta>, more: seq<CallDelta>): seq<Chunk> {
    if more == [] then []
    else
      var p, d := more[..|more| - 1], more[|more| - 1];
      Starts(ds, p) + Start(ds + p, d)
  }

  /** The chunks of one payload: usage, reasoning, content, announcements. */
  function Asked(miniMax: bool, evs: seq<Event>, e: Event): seq<Chunk> {
    if !e.Event? then []
    else if e.choice.None? then Notes(e)
    else
      var d := e.choice.value.delta;
      Notes(e) + Reason(ReasonOf(e)) + Words(miniMax, evs, d.content) + Starts(CallsOf(evs), d.calls)
  }

  function AskedAll(miniMax: bool, evs: seq<Event>): seq<Chunk> {
    if evs == [] then []
    else AskedAll(miniMax, evs[..|evs| - 1]) + Asked(miniMax, evs[..|evs| - 1], evs[|evs| - 1])
  }

  /** The end of a finished answer: the thought still held back, the calls, done. */
  function Closing(miniMax: bool, evs: seq<Event>): seq<Chunk> {
    Reason(HeldBack(miniMax, evs)) + FinalChunks(CallsOf(evs), Seen(CallsOf(evs))) + [DoneChunk]
  }

  /** Whether the `[DONE]` mark is reached. */
  predicate Marked(lines: seq<Failover.Line>) {
    lines != [] && (lines[0].DoneMark? || (!(lines[0].Data? && Ends(lines[0].ev)) && Marked(lines[1..])))
  }

  /** All the chunks of an answer. */
  function Output(miniMax: bool, lines: seq<Failover.Line>): seq<Chunk> {
    var evs := Heard(lines);
    AskedAll(miniMax, evs) + if Finished(lines) then Closing(miniMax, evs) else if Marked(lines) then [DoneChunk] else []
  }

  // ---------------------------------------------------------------- one payload

  lemma {:induction false} MeterSends(r: Read, e: Event)
    requires Live(r) && e.Event?
    ensures Metered(r, e.usage, e.warn).sent == r.sent + Notes(e)
  {
    assert r.sent + [] == r.sent;
  }

  lemma {:induction false} ReasonSends(r: Read, text: string)
    requires Live(r)
    ensures SendReasoning(r, text).r.sent == r.sent + Reason(text)
  {
    assert r.sent + [] == r.sent;
  }

  lemma {:induction false} TextSends(r: Read, text: string)
    requires Live(r)
    ensures SendText(r, text).r.sent == r.sent + Text(text)
  {
    assert r.sent + [] == r.sent;
  }

  lemma {:induction false} Glue(a: seq<Chunk>, b: seq<Chunk>, c: seq<Chunk>)
    ensures a + b + c == a + (b + c)
  {
  }

  lemma {:induction false} WordsSend(r: Read, evs: seq<Event>, text: string)
    requires Live(r) && (r.miniMax ==> r.think == Splitting(evs))
    ensures Content(r, text).r.sent == r.sent + Words(r.miniMax, evs, text)
  {
    if r.miniMax && text != "" {
      var o := Think.Pushed(r.think, text);
      var x := r.(think := o.next);
      ReasonSends(x, o.thought);
      TextSends(SendReasoning(x, o.thought).r, o.visible);
      Glue(r.sent, Reason(o.thought), Text(o.visible));
    } else {
      TextSends(r, text);
    }
  }

  lemma {:induction false} ToolsSend(r: Read, ds: seq<CallDelta>, more: seq<CallDelta>)
    requires Tracks(r, ds)
    ensures Tools(r, more).r.sent == r.sent + Starts(ds, more)
    decreases more
  {
    if more == [] {
      assert r.sent + [] == r.sent;
    } else {
      var p, d := more[..|more| - 1], more[|more| - 1];
      ToolsSend(r, ds, p);
      ToolsStep(r, ds, p);
      Announced(Tools(r, p).r, ds + p, d);
      Glue(r.sent, Starts(ds, p), Start(ds + p, d));
    }
  }

  lemma {:induction false} DeltaSends(r: Read, evs: seq<Event>, e: Event)
    requires Follows(r, r.miniMax, evs) && Good(e) && e.Event? && e.choice.Some?
    ensures DeltaStep(Metered(r, e.usage, e.warn), e.choice.value.delta).r.sent == r.sent + Asked(r.miniMax, evs, e)
  {
    var ds, d, text := CallsOf(evs), e.choice.value.delta, ReasonOf(e);
    var r1 := Metered(r, e.usage, e.warn);
    Metering(r, ds, e.usage, e.warn);
    MeterSends(r, e);
    Reasoning(r1, ds, text);
    ReasonSends(r1, text);
    var r2 := SendReasoning(r1, text).r;
    Contents(r2, ds, d.content);
    WordsSend(r2, evs, d.content);
    var r3 := Content(r2, d.content).r;
    ToolsStep(r3, ds, d.calls);
    ToolsSend(r3, ds, d.calls);
    Glue4(r.sent, Notes(e), Reason(text), Words(r.miniMax, evs, d.content), Starts(ds, d.calls));
  }

  lemma {:induction false} Glue4(a: seq<Chunk>, b: seq<Chunk>, c: seq<Chunk>, d: seq<Chunk>, e: seq<Chunk>)
    ensures a + b + c + d + e == a + (b + c + d + e)
  {
  }

  lemma {:induction false} EventSends(r: Read, evs: seq<Event>, e: Event)
    requires Follows(r, r.miniMax, evs) && Good(e) && !Ends(e)
    ensures Process(r, e).r.sent == r.sent + Asked(r.miniMax, evs, e)
  {
    if e.Event? && e.choice.Some? {
      DeltaFollows(r, evs, e);
      DeltaSends(r, evs, e);
    } else if e.Event? {
      MeterSends(r, e);
    } else {
      assert r.sent + [] == r.sent;
    }
  }

  lemma {:induction false} FinishCloses(x: Read, evs: seq<Event>)
    requires Follows(x, x.miniMax, evs)
    ensures Finish(x).stop && Finish(x).err.None? && Finish(x).r.sent == x.sent + Closing(x.miniMax, evs)
  {
    FinishSends(x, evs);
    ReasonSends(x.(think := Think.Flushed(x.think).next), Think.Flushed(x.think).thought);
    var held, calls := Reason(HeldBack(x.miniMax, evs)), FinalChunks(CallsOf(evs), Seen(CallsOf(evs)));
    Glue(x.sent, held, calls);
    Glue(x.sent, held + calls, [DoneChunk]);
  }

  /** A finishing payload is its delta and then the end. */
  lemma {:induction false} EndsIn(r: Read, e: Event, x: Read)
    requires Good(e) && Ends(e) && DeltaStep(Metered(r, e.usage, e.warn), e.choice.value.delta) == Go(x)
    ensures Process(r, e) == Finish(x)
  {
  }

  lemma {:induction false} LastSends(r: Read, evs: seq<Event>, e: Event)
    requires Follows(r, r.miniMax, evs) && Good(e) && Ends(e)
    ensures Process(r, e).stop && Process(r, e).err.None?
    ensures Process(r, e).r.sent == r.sent + Asked(r.miniMax, evs, e) + Closing(r.miniMax, evs + [e])
  {
    DeltaFollows(r, evs, e);
    DeltaSends(r, evs, e);
    var x := DeltaStep(Metered(r, e.usage, e.warn), e.choice.value.delta).r;
    EndsIn(r, e, x);
    FinishCloses(x, evs + [e]);
  }

  // ---------------------------------------------------------------- the whole answer

  /** What the channel carries after `evs` and then `lines`. */
  function Rest(miniMax: bool, evs: seq<Event>, lines: seq<Failover.Line>): seq<Chunk> {
    if Finished(lines) then Closing(miniMax, evs + Heard(lines)) else if Marked(lines) then [DoneChunk] else []
  }

  lemma {:induction false} AskedSnoc(miniMax: bool, evs: seq<Event>, e: Event)
    ensures AskedAll(miniMax, evs + [e]) == AskedAll(miniMax, evs) + Asked(miniMax, evs, e)
  {
    assert (evs + [e])[..|evs|] == evs;
  }

  /** Reading `lines` after `evs` puts the chunks of both on the channel. */
  ghost predicate Sends(r: Read, evs: seq<Event>, lines: seq<Failover.Line>) {
    Failover.Scan(r, lines).r.sent == AskedAll(r.miniMax, evs + Heard(lines)) + Rest(r.miniMax, evs, lines)
  }

  lemma {:induction false} EndSends(r: Read, evs: seq<Event>, lines: seq<Failover.Line>)
    requires Live(r) && (lines == [] || lines[0].DoneMark?) && r.sent == AskedAll(r.miniMax, evs)
    ensures Sends(r, evs, lines)
  {
    assert evs + [] == evs && r.sent + [] == r.sent;
  }

  lemma {:induction false} StopSends(r: Read, evs: seq<Event>, lines: seq<Failover.Line>)
    requires lines != [] && lines[0].Data? && Ends(lines[0].ev) && Good(lines[0].ev)
    requires Follows(r, r.miniMax, evs) && r.sent == AskedAll(r.miniMax, evs)
    ensures Sends(r, evs, lines)
  {
    LastSends(r, evs, lines[0].ev);
    AskedSnoc(r.miniMax, evs, lines[0].ev);
  }

  lemma {:induction false} DataSends(r: Read, evs: seq<Event>, lines: seq<Failover.Line>)
    requires lines != [] && lines[0].Data? && !Ends(lines[0].ev)
    requires var p := Process(r, lines[0].ev);
             !p.stop && p.err.None? && p.r.miniMax == r.miniMax && Sends(p.r, evs + [lines[0].ev], lines[1..])
    ensures Sends(r, evs, lines)
  {
    var e := lines[0].ev;
    assert evs + [e] + Heard(lines[1..]) == evs + ([e] + Heard(lines[1..]));
  }

  lemma {:induction false} SkipSends(r: Read, evs: seq<Event>, lines: seq<Failover.Line>)
    requires lines != [] && lines[0].Skipped? && Sends(r, evs, lines[1..])
    ensures Sends(r, evs, lines)
  {
  }

  lemma {:induction false} EventKeeps(r: Read, evs: seq<Event>, e: Event)
    requires Follows(r, r.miniMax, evs) && Good(e) && !Ends(e) && r.sent == AskedAll(r.miniMax, evs)
    ensures var p := Process(r, e);
            !p.stop && p.err.None? && p.r.miniMax == r.miniMax && Follows(p.r, r.miniMax, evs + [e]) && p.r.sent == AskedAll(r.miniMax, evs + [e])
  {
    EventFollows(r, evs, e);
    EventSends(r, evs, e);
    AskedSnoc(r.miniMax, evs, e);
  }

  lemma {:induction false} ScanSends(r: Read, evs: seq<Event>, lines: seq<Failover.Line>)
    requires Follows(r, r.miniMax, evs) && GoodLines(lines) && r.sent == AskedAll(r.miniMax, evs)
    ensures Sends(r, evs, lines)
    decreases lines
  {
    if lines == [] || lines[0].DoneMark? {
      EndSends(r, evs, lines);
    } else if lines[0].Skipped? {
      ScanSends(r, evs, lines[1..]);
      SkipSends(r, evs, lines);
    } else if Ends(lines[0].ev) {
      StopSends(r, evs, lines);
    } else {
      var e := lines[0].ev;
      EventKeeps(r, evs, e);
      ScanSends(Process(r, e).r, evs + [e], lines[1..]);
      DataSends(r, evs, lines);
    }
  }

  /**
   Every answer without errors or cancellation: the channel carries exactly the chunks its
   payloads ask for, in their order.
   */
  lemma {:induction false} OutputExact(ok: nat -> bool, miniMax: bool, lines: seq<Failover.Line>)
    requires (forall n :: ok(n)) && GoodLines(lines)
    ensures Failover.ReadStream(Fresh(ok, miniMax), Failover.Body(lines, None, false)).r.sent == Output(miniMax, lines)
  {
    FreshFollows(ok, miniMax);
    ScanSends(Fresh(ok, miniMax), [], lines);
    ScanDelivers(Fresh(ok, miniMax), [], lines, (n: nat) => false, None);
    assert [] + Heard(lines) == Heard(lines);
  }
}
