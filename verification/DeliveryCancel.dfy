/**
 The same answer under cancellation: every send may lose to it.  A lost text, reasoning or tool
 chunk ends the reading at once, a lost usage, warning or done chunk is just left out.
 */
module DeliveryCancel {
  import opened Options
  import opened Protocol
  import opened Sse
  import opened Delivery
  import opened DeliveryChunks
  import Failover
  import Think

  // ---------------------------------------------------------------- sending one after the other

  /** The channel, the number of sends tried, and whether one was lost that should not be. */
  datatype Channel = Channel(sent: seq<Chunk>, tries: nat, broken: bool)

  /** Chunks whose loss ends the reading. */
  predicate Vital(ch: Chunk) {
    ch.TextChunk? || ch.ReasoningChunk? || ch.StartChunk? || ch.CallChunk?
  }

  /** The chunks offered one after the other, up to the first vital one that is lost. */
  function Offer(ok: nat -> bool, c: Channel, chs: seq<Chunk>): Channel {
    if chs == [] then c
    else
      var d, ch := Offer(ok, c, chs[..|chs| - 1]), chs[|chs| - 1];
      if d.broken then d
      else if ok(d.tries) then Channel(d.sent + [ch], d.tries + 1, false)
      else Channel(d.sent, d.tries + 1, Vital(ch))
  }

  lemma {:induction false} OfferCat(ok: nat -> bool, c: Channel, a: seq<Chunk>, b: seq<Chunk>)
    ensures Offer(ok, c, a + b) == Offer(ok, Offer(ok, c, a), b)
    decreases b
  {
    if b == [] {
      assert a + b == a;
    } else {
      assert (a + b)[..|a + b| - 1] == a + b[..|b| - 1];
      OfferCat(ok, c, a, b[..|b| - 1]);
    }
  }

  lemma {:induction false} OfferOne(ok: nat -> bool, c: Channel, ch: Chunk)
    ensures Offer(ok, c, [ch]) == if c.broken then c else if ok(c.tries) then Channel(c.sent + [ch], c.tries + 1, false) else Channel(c.sent, c.tries + 1, Vital(ch))
  {
    assert [ch][..0] == [];
  }

  lemma {:induction false} BrokenStays(ok: nat -> bool, c: Channel, chs: seq<Chunk>)
    requires c.broken
    ensures Offer(ok, c, chs) == c
    decreases chs
  {
    if chs != [] {
      BrokenStays(ok, c, chs[..|chs| - 1]);
    }
  }

  // ---------------------------------------------------------------- a reader and its twin

  /** The reader `q` is like `r`, but nothing cancels it. */
  ghost predicate Twins(r: Read, q: Read) {
    && Live(q) && r.miniMax == q.miniMax && r.acc == q.acc && r.started == q.started && r.order == q.order && r.think == q.think
  }

  function Line(r: Read, broken: bool): Channel {
    Channel(r.sent, r.tries, broken)
  }

  /** What `b` has after `a`. */
  function Since(a: seq<Chunk>, b: seq<Chunk>): seq<Chunk>
    requires a <= b
  {
    b[|a|..]
  }

  lemma {:induction false} SinceCat(a: seq<Chunk>, b: seq<Chunk>, c: seq<Chunk>)
    requires a <= b <= c
    ensures a <= c && Since(a, c) == Since(a, b) + Since(b, c)
  {
  }

  lemma {:induction false} SinceOne(a: seq<Chunk>, ch: Chunk)
    ensures a <= a + [ch] && Since(a, a + [ch]) == [ch] && Since(a, a) == []
  {
  }

  /** A step of `r` offers the chunks that the step of its twin sends, and breaks off where one is lost. */
  ghost predicate Mirrors(r: Read, z: Step, q: Read, y: Step) {
    && y.Go? && Live(y.r) && q.sent <= y.r.sent && z.r.ok == r.ok
    && Line(z.r, z.Halt?) == Offer(r.ok, Line(r, false), Since(q.sent, y.r.sent))
    && (z.Go? ==> Twins(z.r, y.r))
  }

  lemma {:induction false} MirrorsNone(r: Read, q: Read)
    requires Twins(r, q)
    ensures Mirrors(r, Go(r), q, Go(q))
  {
    assert q.sent[|q.sent|..] == [];
  }

  lemma {:induction false} MirrorsSend(r: Read, q: Read, ch: Chunk)
    requires Twins(r, q)
    ensures Vital(ch) ==> Mirrors(r, TrySend(r, ch), q, TrySend(q, ch))
    ensures !Vital(ch) ==> Mirrors(r, Go(Sent(r, ch)), q, Go(Sent(q, ch)))
  {
    OfferOne(r.ok, Line(r, false), ch);
    SinceOne(q.sent, ch);
  }

  /** Two steps one after the other; the second is not made if the first breaks off. */
  lemma {:induction false} MirrorsThen(r: Read, z: Step, q: Read, y: Step, z1: Step, y1: Step)
    requires Mirrors(r, z, q, y)
    requires if z.Go? then Mirrors(z.r, z1, y.r, y1) else z1 == z && y1.Go? && Live(y1.r) && y.r.sent <= y1.r.sent
    ensures Mirrors(r, z1, q, y1)
  {
    SinceCat(q.sent, y.r.sent, y1.r.sent);
    OfferCat(r.ok, Line(r, false), Since(q.sent, y.r.sent), Since(y.r.sent, y1.r.sent));
    if z.Halt? {
      BrokenStays(r.ok, Line(z.r, true), Since(y.r.sent, y1.r.sent));
    }
  }

  lemma {:induction false} MirrorsReasoning(r: Read, q: Read, text: string)
    requires Twins(r, q)
    ensures Mirrors(r, SendReasoning(r, text), q, SendReasoning(q, text))
  {
    MirrorsNone(r, q);
    MirrorsSend(r, q, ReasoningChunk(text));
  }

  lemma {:induction false} MirrorsText(r: Read, q: Read, text: string)
    requires Twins(r, q)
    ensures Mirrors(r, SendText(r, text), q, SendText(q, text))
  {
    MirrorsNone(r, q);
    MirrorsSend(r, q, TextChunk(text));
  }

  lemma {:induction false} MirrorsContent(r: Read, q: Read, text: string)
    requires Twins(r, q)
    ensures Mirrors(r, Content(r, text), q, Content(q, text))
  {
    if text != "" && r.miniMax {
      var o := Think.Pushed(r.think, text);
      var r1, q1 := r.(think := o.next), q.(think := o.next);
      MirrorsReasoning(r1, q1, o.thought);
      var z, y := SendReasoning(r1, o.thought), SendReasoning(q1, o.thought);
      MirrorsText(y.r, y.r, o.visible);
      if z.Go? {
        MirrorsText(z.r, y.r, o.visible);
      }
      MirrorsThen(r1, z, q1, y, Content(r, text), Content(q, text));
    } else {
      MirrorsNone(r, q);
      MirrorsSend(r, q, TextChunk(text));
    }
  }

  lemma {:induction false} MirrorsTool(r: Read, q: Read, d: CallDelta)
    requires Twins(r, q)
    ensures Mirrors(r, ToolDelta(r, d), q, ToolDelta(q, d))
  {
    var cur := Merge(Current(r, d.index), d);
    var order := if d.index in r.acc then r.order else r.order + [d.index];
    var r1, q1 := r.(acc := r.acc[d.index := cur], order := order), q.(acc := q.acc[d.index := cur], order := order);
    MirrorsNone(r1, q1);
    MirrorsSend(r1.(started := r1.started + {d.index}), q1.(started := q1.started + {d.index}), StartChunk(Some(ToolCall(cur.id, "", cur.name, ""))));
  }

  lemma {:induction false} MirrorsTools(r: Read, q: Read, ds: seq<CallDelta>)
    requires Twins(r, q)
    ensures Mirrors(r, Tools(r, ds), q, Tools(q, ds))
    decreases ds
  {
    if ds == [] {
      MirrorsNone(r, q);
    } else {
      var p, d := ds[..|ds| - 1], ds[|ds| - 1];
      var z, y := Tools(r, p), Tools(q, p);
      MirrorsTools(r, q, p);
      MirrorsTools(q, q, p);
      MirrorsTool(y.r, y.r, d);
      if z.Go? {
        MirrorsTool(z.r, y.r, d);
      }
      MirrorsThen(r, z, q, y, Tools(r, ds), Tools(q, ds));
    }
  }

  lemma {:induction false} MirrorsFinal(r: Read, q: Read, i: int)
    requires Twins(r, q)
    ensures Mirrors(r, FinalCall(r, i), q, FinalCall(q, i))
  {
    MirrorsNone(r, q);
    if i in r.acc {
      var tc := if r.acc[i].id == "" then r.acc[i].(id := SynthId(i)) else r.acc[i];
      MirrorsSend(r.(acc := r.acc[i := tc]), q.(acc := q.acc[i := tc]), CallChunk(Some(tc)));
    }
  }

  lemma {:induction false} MirrorsFinals(r: Read, q: Read, ids: seq<int>)
    requires Twins(r, q)
    ensures Mirrors(r, FinalCalls(r, ids), q, FinalCalls(q, ids))
    decreases ids
  {
    if ids == [] {
      MirrorsNone(r, q);
    } else {
      var p, i := ids[..|ids| - 1], ids[|ids| - 1];
      var z, y := FinalCalls(r, p), FinalCalls(q, p);
      MirrorsFinals(r, q, p);
      MirrorsFinals(q, q, p);
      MirrorsFinal(y.r, y.r, i);
      if z.Go? {
        MirrorsFinal(z.r, y.r, i);
      }
      MirrorsThen(r, z, q, y, FinalCalls(r, ids), FinalCalls(q, ids));
    }
  }

  lemma {:induction false} MirrorsDelta(r: Read, q: Read, d: Delta)
    requires Twins(r, q)
    ensures Mirrors(r, DeltaStep(r, d), q, DeltaStep(q, d))
  {
    var text := ReasoningDelta(d);
    var z, y := SendReasoning(r, text), SendReasoning(q, text);
    MirrorsReasoning(r, q, text);
    MirrorsContent(y.r, y.r, d.content);
    MirrorsTools(Content(y.r, d.content).r, Content(y.r, d.content).r, d.calls);
    MirrorsRest(y.r, y.r, d);
    if z.Go? {
      MirrorsRest(z.r, y.r, d);
    }
    MirrorsThen(r, z, q, y, DeltaStep(r, d), DeltaStep(q, d));
  }

  /** The content and the tool fragments of a delta. */
  function ContentAndTools(r: Read, d: Delta): Step {
    match Content(r, d.content)
    case Halt(y) => Halt(y)
    case Go(y) => Tools(y, d.calls)
  }

  lemma {:induction false} MirrorsRest(r: Read, q: Read, d: Delta)
    requires Twins(r, q)
    ensures Mirrors(r, ContentAndTools(r, d), q, ContentAndTools(q, d))
  {
    var z, y := Content(r, d.content), Content(q, d.content);
    MirrorsContent(r, q, d.content);
    MirrorsTools(y.r, y.r, d.calls);
    if z.Go? {
      MirrorsTools(z.r, y.r, d.calls);
    }
    MirrorsThen(r, z, q, y, ContentAndTools(r, d), ContentAndTools(q, d));
  }

  lemma {:induction false} MirrorsMeter(r: Read, q: Read, usage: Option<Usage>, warn: Option<string>)
    requires Twins(r, q)
    ensures Mirrors(r, Go(Metered(r, usage, warn)), q, Go(Metered(q, usage, warn)))
  {
    MirrorsNone(r, q);
    if usage.Some? {
      var u := UsageChunk(usage.value);
      MirrorsSend(r, q, u);
      MirrorsWarn(Sent(r, u), Sent(q, u), warn);
      MirrorsThen(r, Go(Sent(r, u)), q, Go(Sent(q, u)), Go(Metered(r, usage, warn)), Go(Metered(q, usage, warn)));
    }
  }

  lemma {:induction false} MirrorsWarn(r: Read, q: Read, warn: Option<string>)
    requires Twins(r, q)
    ensures Mirrors(r, Go(Warned(r, warn)), q, Go(Warned(q, warn)))
  {
    MirrorsNone(r, q);
    if warn.Some? {
      MirrorsSend(r, q, WarnChunk(warn.value));
    }
  }

  // ---------------------------------------------------------------- one payload

  function AsStep(z: Result): Step {
    if z.err.Some? then Halt(z.r) else Go(z.r)
  }

  ghost predicate MirrorsAll(r: Read, z: Result, q: Read, y: Result) {
    && Mirrors(r, AsStep(z), q, AsStep(y))
    && (z.err.None? ==> z.stop == y.stop)
    && (z.err.Some? ==> !z.stop && z.err == Some(CANCELLED))
  }

  /** The end of a finished answer, after its last thought. */
  function CallsAndDone(r: Read): Result {
    match FinalCalls(r, r.order)
    case Halt(y) => Result(y, false, Some(CANCELLED))
    case Go(y) => Result(Sent(y, DoneChunk), true, None)
  }

  lemma {:induction false} MirrorsDone(r: Read, q: Read)
    requires Twins(r, q)
    ensures MirrorsAll(r, CallsAndDone(r), q, CallsAndDone(q))
  {
    var z, y := FinalCalls(r, r.order), FinalCalls(q, q.order);
    MirrorsFinals(r, q, r.order);
    MirrorsSend(y.r, y.r, DoneChunk);
    if z.Go? {
      MirrorsSend(z.r, y.r, DoneChunk);
    }
    MirrorsThen(r, z, q, y, AsStep(CallsAndDone(r)), AsStep(CallsAndDone(q)));
  }

  lemma {:induction false} MirrorsFinish(r: Read, q: Read)
    requires Twins(r, q)
    ensures MirrorsAll(r, Finish(r), q, Finish(q))
  {
    var o := Think.Flushed(r.think);
    var r1, q1 := r.(think := o.next), q.(think := o.next);
    var z, y := SendReasoning(r1, o.thought), SendReasoning(q1, o.thought);
    MirrorsReasoning(r1, q1, o.thought);
    MirrorsDone(y.r, y.r);
    if z.Go? {
      MirrorsDone(z.r, y.r);
    }
    MirrorsThen(r1, z, q1, y, AsStep(Finish(r)), AsStep(Finish(q)));
  }

  lemma {:induction false} MirrorsChoice(r: Read, q: Read, c: Choice)
    requires Twins(r, q)
    ensures MirrorsAll(r, ChoiceStep(r, c), q, ChoiceStep(q, c))
  {
    var z, y := DeltaStep(r, c.delta), DeltaStep(q, c.delta);
    MirrorsDelta(r, q, c.delta);
    if Finishes(c) {
      MirrorsFinish(y.r, y.r);
      if z.Go? {
        MirrorsFinish(z.r, y.r);
      }
      MirrorsThen(r, z, q, y, AsStep(ChoiceStep(r, c)), AsStep(ChoiceStep(q, c)));
    }
  }

  lemma {:induction false} MirrorsProcess(r: Read, q: Read, e: Event)
    requires Twins(r, q) && Good(e)
    ensures MirrorsAll(r, Process(r, e), q, Process(q, e))
  {
    if e.Garbage? {
      MirrorsNone(r, q);
    } else {
      var r1, q1 := Metered(r, e.usage, e.warn), Metered(q, e.usage, e.warn);
      MirrorsMeter(r, q, e.usage, e.warn);
      if e.choice.Some? {
        MirrorsChoice(r1, q1, e.choice.value);
        MirrorsThen(r, Go(r1), q, Go(q1), AsStep(Process(r, e)), AsStep(Process(q, e)));
      }
    }
  }

  // ---------------------------------------------------------------- the whole answer

  function Scanning(x: Failover.Scanned): Step {
    if x.Failed? then Halt(x.r) else Go(x.r)
  }

  ghost predicate MirrorsScan(r: Read, q: Read, lines: seq<Failover.Line>) {
    Mirrors(r, Scanning(Failover.Scan(r, lines)), q, Scanning(Failover.Scan(q, lines)))
  }

  lemma {:induction false} ScanMirrors(r: Read, q: Read, lines: seq<Failover.Line>)
    requires Twins(r, q) && GoodLines(lines)
    ensures MirrorsScan(r, q, lines)
    decreases lines
  {
    if lines == [] {
      MirrorsNone(r, q);
    } else if lines[0].DoneMark? {
      MirrorsSend(r, q, DoneChunk);
    } else if lines[0].Skipped? {
      ScanMirrors(r, q, lines[1..]);
    } else {
      DataMirrors(r, q, lines);
    }
  }

  lemma {:induction false} DataMirrors(r: Read, q: Read, lines: seq<Failover.Line>)
    requires Twins(r, q) && GoodLines(lines) && lines != [] && lines[0].Data?
    ensures MirrorsScan(r, q, lines)
    decreases lines, 0
  {
    var e := lines[0].ev;
    var z, y := Process(r, e), Process(q, e);
    MirrorsProcess(r, q, e);
    if !y.stop {
      ScanMirrors(y.r, y.r, lines[1..]);
      if z.err.None? {
        ScanMirrors(z.r, y.r, lines[1..]);
      }
      MirrorsThen(r, AsStep(z), q, AsStep(y), Scanning(Failover.Scan(r, lines)), Scanning(Failover.Scan(q, lines)));
    }
  }

  lemma {:induction false} ReadIs(r: Read, lines: seq<Failover.Line>)
    ensures var x, y := Failover.ReadStream(r, Failover.Body(lines, None, false)), Failover.Scan(r, lines);
            x.r == y.r && (x.err.Some? <==> y.Failed?)
  {
  }

  lemma {:induction false} Beside(ok: nat -> bool, always: nat -> bool, miniMax: bool, lines: seq<Failover.Line>)
    requires GoodLines(lines) && forall n :: always(n)
    ensures var x := Failover.Scan(Fresh(ok, miniMax), lines);
            Line(x.r, x.Failed?) == Offer(ok, Channel([], 0, false), Output(miniMax, lines))
  {
    ScanMirrors(Fresh(ok, miniMax), Fresh(always, miniMax), lines);
    OutputExact(always, miniMax, lines);
    ReadIs(Fresh(always, miniMax), lines);
    assert Since([], Output(miniMax, lines)) == Output(miniMax, lines);
  }

  /**
   Every answer without errors, under any cancellation: the channel carries the chunks its
   payloads ask for, in their order and without those lost, up to the first text, reasoning or
   tool chunk that is lost; the reading fails if and only if there is one.
   */
  lemma {:induction false} OutputUnderCancellation(ok: nat -> bool, miniMax: bool, lines: seq<Failover.Line>)
    requires GoodLines(lines)
    ensures var x := Failover.ReadStream(Fresh(ok, miniMax), Failover.Body(lines, None, false));
            Channel(x.r.sent, x.r.tries, x.err.Some?) == Offer(ok, Channel([], 0, false), Output(miniMax, lines))
  {
    ReadIs(Fresh(ok, miniMax), lines);
    Beside(ok, (n: nat) => true, miniMax, lines);
  }
}
