/**
 Streaming end to end: from the events of one answer, through the chunks, to the message the
 bridge emits.
 */
module Delivery {
  import opened Options
  import opened Protocol
  import opened Sse
  import opened Bridge
  import opened Texts
  import Failover
  import Think

  // ---------------------------------------------------------------- what the events say

  /** The tool indices in the order they were first seen. */
  function Seen(ds: seq<CallDelta>): seq<int> {
    if ds == [] then []
    else
      var s, i := Seen(ds[..|ds| - 1]), ds[|ds| - 1].index;
      if i in s then s else s + [i]
  }

  /** The argument fragments of index `i`, concatenated. */
  function Args(ds: seq<CallDelta>, i: int): string {
    if ds == [] then ""
    else Args(ds[..|ds| - 1], i) + (if ds[|ds| - 1].index == i then ds[|ds| - 1].arguments else "")
  }

  /** The last ID and the last name given for index `i`. */
  function IdOf(ds: seq<CallDelta>, i: int): string {
    if ds == [] then ""
    else
      var d := ds[|ds| - 1];
      if d.index == i && d.id != "" then d.id else IdOf(ds[..|ds| - 1], i)
  }

  function NameOf(ds: seq<CallDelta>, i: int): string {
    if ds == [] then ""
    else
      var d := ds[|ds| - 1];
      if d.index == i && d.name != "" then d.name else NameOf(ds[..|ds| - 1], i)
  }

  /** A call as it is announced: when its name first becomes known, with the ID it has then. */
  datatype Announcement = Announcement(index: int, id: string, name: string)

  function Announcements(ds: seq<CallDelta>): seq<Announcement> {
    if ds == [] then []
    else
      var p, d := ds[..|ds| - 1], ds[|ds| - 1];
      if NameOf(p, d.index) == "" && d.name != "" then Announcements(p) + [Announcement(d.index, IdOf(ds, d.index), d.name)]
      else Announcements(p)
  }

  /** The ID a call is finished with: made up if none came. */
  function FinalId(ds: seq<CallDelta>, i: int): (id: string)
    ensures id != ""
  {
    if IdOf(ds, i) == "" then SynthId(i) else IdOf(ds, i)
  }

  /** The number that digits stand for. */
  function Numeral(digits: string): int {
    if digits == [] then 0 else 10 * Numeral(digits[..|digits| - 1]) + (digits[|digits| - 1] as int - '0' as int)
  }

  lemma {:induction false} DecimalReads(n: nat)
    ensures Numeral(Decimal(n)) == n && Decimal(n) != [] && Decimal(n)[0] != '-'
    decreases n
  {
    if n < 10 {
      assert Decimal(n)[..0] == [];
    } else {
      DecimalReads(n / 10);
      assert Decimal(n)[..|Decimal(n)| - 1] == Decimal(n / 10);
    }
  }

  /** A made-up ID is `call_` and the index, so calls with different indices have different ones. */
  lemma {:induction false} SynthReads(i: int)
    ensures var id := SynthId(i);
            && |id| > 5 && id[..5] == "call_"
            && (if i >= 0 then id[5] != '-' && Numeral(id[5..]) == i else id[5] == '-' && Numeral(id[6..]) == -i)
  {
    var id := SynthId(i);
    if i >= 0 {
      DecimalReads(i);
      assert id[5..] == Decimal(i);
    } else {
      DecimalReads(-i);
      assert id[6..] == Decimal(-i);
    }
  }

  lemma {:induction false} SynthDistinct(i: int, j: int)
    requires SynthId(i) == SynthId(j)
    ensures i == j
  {
    SynthReads(i);
    SynthReads(j);
  }

  function CallsOf(evs: seq<Event>): seq<CallDelta> {
    if evs == [] then []
    else
      var e := evs[|evs| - 1];
      CallsOf(evs[..|evs| - 1]) + (if e.Event? && e.choice.Some? then e.choice.value.delta.calls else [])
  }

  function ContentOf(e: Event): string {
    if e.Event? && e.choice.Some? then e.choice.value.delta.content else ""
  }

  /** The field `reasoning_content`, or, if that is empty, the field `reasoning`. */
  function ReasonOf(e: Event): string {
    if !e.Event? || e.choice.None? then ""
    else
      var d := e.choice.value.delta;
      if d.reasoningContent != "" then d.reasoningContent else d.reasoning
  }

  function Splitting(evs: seq<Event>): Think.Splitter {
    if evs == [] then Think.FRESH
    else if ContentOf(evs[|evs| - 1]) == "" then Splitting(evs[..|evs| - 1])
    else Think.Pushed(Splitting(evs[..|evs| - 1]), ContentOf(evs[|evs| - 1])).next
  }

  /** The visible text of the events; only MiniMax answers are split. */
  function VisibleText(miniMax: bool, evs: seq<Event>): string {
    if evs == [] then ""
    else
      var c := ContentOf(evs[|evs| - 1]);
      VisibleText(miniMax, evs[..|evs| - 1])
      + (if miniMax && c != "" then Think.Pushed(Splitting(evs[..|evs| - 1]), c).visible else c)
  }

  /** The reasoning of the events: the reasoning deltas, and what is split off MiniMax text. */
  function ReasoningText(miniMax: bool, evs: seq<Event>): string {
    if evs == [] then ""
    else
      var c := ContentOf(evs[|evs| - 1]);
      ReasoningText(miniMax, evs[..|evs| - 1]) + ReasonOf(evs[|evs| - 1])
      + (if miniMax && c != "" then Think.Pushed(Splitting(evs[..|evs| - 1]), c).thought else "")
  }

  /** What the reader still holds back at the end. */
  function HeldBack(miniMax: bool, evs: seq<Event>): string {
    if miniMax then Splitting(evs).buf else ""
  }

  // ---------------------------------------------------------------- chunks

  function TextOf(chs: seq<Chunk>): string {
    if chs == [] then ""
    else TextOf(chs[..|chs| - 1]) + (if chs[|chs| - 1].TextChunk? then chs[|chs| - 1].text else "")
  }

  function ReasoningOf(chs: seq<Chunk>): string {
    if chs == [] then ""
    else ReasoningOf(chs[..|chs| - 1]) + (if chs[|chs| - 1].ReasoningChunk? then chs[|chs| - 1].text else "")
  }

  function StartsOf(chs: seq<Chunk>): seq<ToolCall> {
    if chs == [] then []
    else
      var c := chs[|chs| - 1];
      StartsOf(chs[..|chs| - 1])
      + (if c.StartChunk? && c.call.Some? then [ToolCall(c.call.value.id, "function", c.call.value.name, "")] else [])
  }

  /** Nothing final has been sent yet. */
  predicate Calm(chs: seq<Chunk>) {
    forall k :: 0 <= k < |chs| ==> !Terminal(chs[k]) && !chs[k].CallChunk?
  }

  lemma {:induction false} Grow(chs: seq<Chunk>, c: Chunk)
    ensures TextOf(chs + [c]) == TextOf(chs) + (if c.TextChunk? then c.text else "")
    ensures ReasoningOf(chs + [c]) == ReasoningOf(chs) + (if c.ReasoningChunk? then c.text else "")
    ensures StartsOf(chs + [c]) == StartsOf(chs)
         + (if c.StartChunk? && c.call.Some? then [ToolCall(c.call.value.id, "function", c.call.value.name, "")] else [])
  {
    assert (chs + [c])[..|chs|] == chs;
  }

  /** The bridge's draft over calm chunks is the concatenation of their parts. */
  lemma {:induction false} DraftOf(chs: seq<Chunk>)
    requires Calm(chs)
    ensures AbsorbAll(BLANK, chs) == Draft(TextOf(chs), ReasoningOf(chs), StartsOf(chs))
    decreases chs
  {
    if chs != [] {
      var p, c := chs[..|chs| - 1], chs[|chs| - 1];
      DraftOf(p);
      AbsorbSnoc(BLANK, p, c);
      assert p + [c] == chs;
      Grow(p, c);
      var d := AbsorbAll(BLANK, p);
      assert d.content + "" == d.content && d.reasoning + "" == d.reasoning && d.calls + [] == d.calls;
    }
  }

  // ---------------------------------------------------------------- the reader keeps track

  ghost predicate Live(r: Read) {
    forall n :: r.ok(n)
  }

  /** The announced calls, still without arguments. */
  function Bare(ans: seq<Announcement>): (r: seq<ToolCall>)
    ensures |r| == |ans|
  {
    seq(|ans|, k requires 0 <= k < |ans| => ToolCall(ans[k].id, "function", ans[k].name, ""))
  }

  function Gathered(ds: seq<CallDelta>, i: int): ToolCall {
    ToolCall(IdOf(ds, i), "", NameOf(ds, i), Args(ds, i))
  }

  /** The accumulators hold what the fragments `ds` say. */
  ghost predicate Gathers(x: Read, ds: seq<CallDelta>) {
    && x.order == Seen(ds) && (forall i :: i in x.acc <==> i in x.order)
    && (forall i :: i in x.acc ==> x.acc[i] == Gathered(ds, i))
    && (forall i :: i in x.started <==> NameOf(ds, i) != "")
  }

  /** The reader after fragments `ds`. */
  ghost predicate Tracks(r: Read, ds: seq<CallDelta>) {
    && Live(r) && Calm(r.sent)
    && Gathers(r, ds)
    && StartsOf(r.sent) == Bare(Announcements(ds))
  }

  lemma {:induction false} SeenDistinct(ds: seq<CallDelta>)
    ensures Distinct(Seen(ds))
    decreases ds
  {
    if ds != [] {
      SeenDistinct(ds[..|ds| - 1]);
    }
  }

  lemma {:induction false} SnocParts(ds: seq<CallDelta>, d: CallDelta)
    ensures Seen(ds + [d]) == if d.index in Seen(ds) then Seen(ds) else Seen(ds) + [d.index]
    ensures Announcements(ds + [d])
         == if NameOf(ds, d.index) == "" && d.name != "" then Announcements(ds) + [Announcement(d.index, IdOf(ds + [d], d.index), d.name)]
            else Announcements(ds)
  {
    assert (ds + [d])[..|ds|] == ds;
  }

  lemma {:induction false} SnocAt(ds: seq<CallDelta>, d: CallDelta, i: int)
    ensures Args(ds + [d], i) == Args(ds, i) + (if d.index == i then d.arguments else "")
    ensures IdOf(ds + [d], i) == if d.index == i && d.id != "" then d.id else IdOf(ds, i)
    ensures NameOf(ds + [d], i) == if d.index == i && d.name != "" then d.name else NameOf(ds, i)
  {
    assert (ds + [d])[..|ds|] == ds;
  }

  lemma {:induction false} Unseen(ds: seq<CallDelta>, i: int)
    requires i !in Seen(ds)
    ensures Args(ds, i) == "" && IdOf(ds, i) == "" && NameOf(ds, i) == ""
    decreases ds
  {
    if ds != [] {
      Unseen(ds[..|ds| - 1], i);
    }
  }

  /** The accumulator of an index after one more fragment. */
  lemma {:induction false} AccStep(r: Read, ds: seq<CallDelta>, d: CallDelta, i: int)
    requires Gathers(r, ds) && (i in r.acc || i == d.index)
    ensures (if i == d.index then Merge(Current(r, i), d) else Current(r, i)) == Gathered(ds + [d], i)
  {
    SnocAt(ds, d, i);
    Empty(Args(ds, i));
    Empty(d.arguments);
    if i !in r.acc {
      Unseen(ds, i);
    }
  }

  lemma {:induction false} BareSnoc(ans: seq<Announcement>, a: Announcement)
    ensures Bare(ans + [a]) == Bare(ans) + [ToolCall(a.id, "function", a.name, "")]
  {
  }

  /** The accumulators after a fragment, in terms of those before it. */
  lemma {:induction false} AccAfter(r: Read, d: CallDelta)
    ensures var x, cur := ToolDelta(r, d).r, Merge(Current(r, d.index), d);
            && x.acc == r.acc[d.index := cur]
            && x.order == (if d.index in r.acc then r.order else r.order + [d.index])
            && x.started == (if cur.name != "" then r.started + {d.index} else r.started)
  {
    if d.index in r.started {
      assert r.started + {d.index} == r.started;
    }
  }

  lemma {:induction false} AccKept(r: Read, ds: seq<CallDelta>, d: CallDelta)
    requires Gathers(r, ds)
    ensures Gathers(ToolDelta(r, d).r, ds + [d])
  {
    var x := ToolDelta(r, d).r;
    AccAfter(r, d);
    SnocParts(ds, d);
    forall i | i in x.acc ensures x.acc[i] == Gathered(ds + [d], i) {
      AccStep(r, ds, d, i);
    }
    StartedKept(r, ds, d);
  }

  lemma {:induction false} StartedKept(r: Read, ds: seq<CallDelta>, d: CallDelta)
    requires Gathers(r, ds)
    ensures forall i :: i in ToolDelta(r, d).r.started <==> NameOf(ds + [d], i) != ""
  {
    var x := ToolDelta(r, d).r;
    AccAfter(r, d);
    AccStep(r, ds, d, d.index);
    forall i ensures i in x.started <==> NameOf(ds + [d], i) != "" {
      SnocAt(ds, d, i);
    }
  }

  /** A fragment announces its call when it is the first to name it. */
  lemma {:induction false} Announced(r: Read, ds: seq<CallDelta>, d: CallDelta)
    requires Tracks(r, ds)
    ensures ToolDelta(r, d).Go?
    ensures ToolDelta(r, d).r.sent
         == if NameOf(ds, d.index) == "" && d.name != "" then r.sent + [StartChunk(Some(ToolCall(IdOf(ds + [d], d.index), "", d.name, "")))]
            else r.sent
  {
    SnocAt(ds, d, d.index);
    AccStep(r, ds, d, d.index);
  }

  lemma {:induction false} SentAnnounced(sent: seq<Chunk>, ds: seq<CallDelta>, d: CallDelta)
    requires Calm(sent) && StartsOf(sent) == Bare(Announcements(ds)) && NameOf(ds, d.index) == "" && d.name != ""
    ensures var more := sent + [StartChunk(Some(ToolCall(IdOf(ds + [d], d.index), "", d.name, "")))];
            && Calm(more) && StartsOf(more) == Bare(Announcements(ds + [d]))
            && TextOf(more) == TextOf(sent) && ReasoningOf(more) == ReasoningOf(sent)
  {
    var id := IdOf(ds + [d], d.index);
    SnocParts(ds, d);
    Grow(sent, StartChunk(Some(ToolCall(id, "", d.name, ""))));
    BareSnoc(Announcements(ds), Announcement(d.index, id, d.name));
    Empty(TextOf(sent));
    Empty(ReasoningOf(sent));
  }

  lemma {:induction false} ToolStep(r: Read, ds: seq<CallDelta>, d: CallDelta)
    requires Tracks(r, ds)
    ensures ToolDelta(r, d).Go? && Tracks(ToolDelta(r, d).r, ds + [d])
    ensures Same(r, ToolDelta(r, d).r)
  {
    AccKept(r, ds, d);
    Announced(r, ds, d);
    if NameOf(ds, d.index) == "" && d.name != "" {
      SentAnnounced(r.sent, ds, d);
    } else {
      SnocParts(ds, d);
    }
  }

  /** Tool fragments leave the texts and the splitter alone. */
  ghost predicate Same(r: Read, z: Read) {
    z.think == r.think && z.miniMax == r.miniMax && TextOf(z.sent) == TextOf(r.sent) && ReasoningOf(z.sent) == ReasoningOf(r.sent)
  }

  lemma {:induction false} ToolsStep(r: Read, ds: seq<CallDelta>, more: seq<CallDelta>)
    requires Tracks(r, ds)
    ensures Tools(r, more).Go? && Tracks(Tools(r, more).r, ds + more) && Same(r, Tools(r, more).r)
    decreases more
  {
    if more == [] {
      assert ds + more == ds;
    } else {
      var p, d := more[..|more| - 1], more[|more| - 1];
      ToolsStep(r, ds, p);
      assert more == p + [d] && ds + more == ds + p + [d];
      ToolsMore(r, ds, p, d);
    }
  }

  lemma {:induction false} ToolsMore(r: Read, ds: seq<CallDelta>, p: seq<CallDelta>, d: CallDelta)
    requires Tools(r, p).Go? && Tracks(Tools(r, p).r, ds + p) && Same(r, Tools(r, p).r)
    ensures var z := Tools(r, p + [d]); z.Go? && Tracks(z.r, ds + p + [d]) && Same(r, z.r)
  {
    ToolsLast(r, p, d);
    ToolStep(Tools(r, p).r, ds + p, d);
  }

  lemma {:induction false} ToolsLast(r: Read, p: seq<CallDelta>, d: CallDelta)
    requires Tools(r, p).Go?
    ensures Tools(r, p + [d]) == ToolDelta(Tools(r, p).r, d)
  {
    assert (p + [d])[..|p|] == p;
  }

  // ---------------------------------------------------------------- one event

  ghost predicate Follows(r: Read, miniMax: bool, evs: seq<Event>) {
    && Tracks(r, CallsOf(evs)) && r.miniMax == miniMax
    && TextOf(r.sent) == VisibleText(miniMax, evs)
    && ReasoningOf(r.sent) == ReasoningText(miniMax, evs)
    && r.think == if miniMax then Splitting(evs) else Think.FRESH
  }

  /** Sending anything but a start chunk keeps the accumulators. */
  lemma {:induction false} Sending(r: Read, ds: seq<CallDelta>, ch: Chunk)
    requires Tracks(r, ds) && !Terminal(ch) && !ch.CallChunk? && !ch.StartChunk?
    ensures Tracks(Sent(r, ch), ds) && Sent(r, ch).sent == r.sent + [ch]
    ensures Sent(r, ch).think == r.think && Sent(r, ch).miniMax == r.miniMax
    ensures TextOf(Sent(r, ch).sent) == TextOf(r.sent) + (if ch.TextChunk? then ch.text else "")
    ensures ReasoningOf(Sent(r, ch).sent) == ReasoningOf(r.sent) + (if ch.ReasoningChunk? then ch.text else "")
  {
    Grow(r.sent, ch);
    assert StartsOf(r.sent) + [] == StartsOf(r.sent);
  }

  lemma {:induction false} Using(r: Read, ds: seq<CallDelta>, u: Usage)
    requires Tracks(r, ds)
    ensures Tracks(Sent(r, UsageChunk(u)), ds) && Same(r, Sent(r, UsageChunk(u)))
  {
    Sending(r, ds, UsageChunk(u));
    Empty(TextOf(r.sent));
    Empty(ReasoningOf(r.sent));
  }

  /** Whether something has been emitted is no part of what is tracked. */
  lemma {:induction false} EmittedAside(r: Read, ds: seq<CallDelta>, x: Read, emitted: bool)
    requires Tracks(r, ds) && x == r.(emitted := emitted)
    ensures Tracks(x, ds) && Same(r, x)
  {
  }

  /** A warning that goes out is sent like any chunk, but does not count as output. */
  lemma {:induction false} WarnedIs(r: Read, text: string)
    requires r.ok(r.tries)
    ensures Warned(r, Some(text)) == Sent(r, WarnChunk(text)).(emitted := r.emitted)
  {
  }

  lemma {:induction false} WarningSent(r: Read, ds: seq<CallDelta>, x: Read, text: string)
    requires Tracks(r, ds) && x == Sent(r, WarnChunk(text))
    ensures Tracks(x, ds) && Same(r, x)
  {
    Sending(r, ds, WarnChunk(text));
    Empty(TextOf(r.sent));
    Empty(ReasoningOf(r.sent));
  }

  lemma {:induction false} Warning(r: Read, ds: seq<CallDelta>, text: string)
    requires Tracks(r, ds)
    ensures Tracks(Warned(r, Some(text)), ds) && Same(r, Warned(r, Some(text)))
  {
    WarnedIs(r, text);
    WarningSent(r, ds, Sent(r, WarnChunk(text)), text);
    EmittedAside(Sent(r, WarnChunk(text)), ds, Warned(r, Some(text)), r.emitted);
  }

  lemma {:induction false} Metering(r: Read, ds: seq<CallDelta>, usage: Option<Usage>, warn: Option<string>)
    requires Tracks(r, ds)
    ensures Tracks(Metered(r, usage, warn), ds) && Same(r, Metered(r, usage, warn))
  {
    if usage.Some? {
      Using(r, ds, usage.value);
      if warn.Some? {
        Warning(Sent(r, UsageChunk(usage.value)), ds, warn.value);
      }
    }
  }

  lemma {:induction false} Reasoning(r: Read, ds: seq<CallDelta>, text: string)
    requires Tracks(r, ds)
    ensures var z := SendReasoning(r, text);
            && z.Go? && Tracks(z.r, ds) && z.r.think == r.think && z.r.miniMax == r.miniMax
            && TextOf(z.r.sent) == TextOf(r.sent) && ReasoningOf(z.r.sent) == ReasoningOf(r.sent) + text
  {
    Empty(TextOf(r.sent));
    Empty(ReasoningOf(r.sent));
    if text != "" {
      Sending(r, ds, ReasoningChunk(text));
    }
  }

  lemma {:induction false} Texting(r: Read, ds: seq<CallDelta>, text: string)
    requires Tracks(r, ds)
    ensures var z := SendText(r, text);
            && z.Go? && Tracks(z.r, ds) && z.r.think == r.think && z.r.miniMax == r.miniMax
            && TextOf(z.r.sent) == TextOf(r.sent) + text && ReasoningOf(z.r.sent) == ReasoningOf(r.sent)
  {
    Empty(TextOf(r.sent));
    Empty(ReasoningOf(r.sent));
    if text != "" {
      Sending(r, ds, TextChunk(text));
    }
  }

  lemma {:induction false} Contents(r: Read, ds: seq<CallDelta>, text: string)
    requires Tracks(r, ds)
    ensures var z, o := Content(r, text), Think.Pushed(r.think, text);
            var split := r.miniMax && text != "";
            && z.Go? && Tracks(z.r, ds) && z.r.miniMax == r.miniMax
            && z.r.think == (if split then o.next else r.think)
            && TextOf(z.r.sent) == TextOf(r.sent) + (if split then o.visible else text)
            && ReasoningOf(z.r.sent) == ReasoningOf(r.sent) + (if split then o.thought else "")
  {
    Empty(TextOf(r.sent));
    Empty(ReasoningOf(r.sent));
    if text != "" && r.miniMax {
      var o := Think.Pushed(r.think, text);
      var x := r.(think := o.next);
      Reasoning(x, ds, o.thought);
      Texting(SendReasoning(x, o.thought).r, ds, o.visible);
    } else if text != "" {
      Sending(r, ds, TextChunk(text));
    }
  }

  /** An event that carries no error. */
  predicate Good(e: Event) {
    e.Garbage? || e.error.None?
  }

  predicate Ends(e: Event) {
    e.Event? && e.choice.Some? && e.choice.value.finish.Some? && e.choice.value.finish.value != ""
  }

  /** What a delta adds to the texts, and what it makes of the splitter. */
  ghost predicate Reads(r: Read, d: Delta, reason: string, z: Read) {
    var o, split := Think.Pushed(r.think, d.content), r.miniMax && d.content != "";
    && z.miniMax == r.miniMax && z.think == (if split then o.next else r.think)
    && TextOf(z.sent) == TextOf(r.sent) + (if split then o.visible else d.content)
    && ReasoningOf(z.sent) == ReasoningOf(r.sent) + reason + (if split then o.thought else "")
  }

  lemma {:induction false} DeltaReads(r: Read, ds: seq<CallDelta>, d: Delta, reason: string)
    requires Tracks(r, ds) && reason == if d.reasoningContent != "" then d.reasoningContent else d.reasoning
    ensures var z := DeltaStep(r, d); z.Go? && Tracks(z.r, ds + d.calls) && Reads(r, d, reason, z.r)
  {
    Reasoning(r, ds, reason);
    var r2 := SendReasoning(r, reason).r;
    Contents(r2, ds, d.content);
    ToolsStep(Content(r2, d.content).r, ds, d.calls);
  }

  lemma {:induction false} FollowsSnoc(r: Read, evs: seq<Event>, e: Event, r1: Read, z: Read)
    requires Follows(r, r.miniMax, evs) && e.Event? && e.choice.Some? && Same(r, r1)
    requires Tracks(z, CallsOf(evs) + e.choice.value.delta.calls) && Reads(r1, e.choice.value.delta, ReasonOf(e), z)
    ensures Follows(z, r.miniMax, evs + [e])
  {
    assert (evs + [e])[..|evs|] == evs;
    Empty(ReasoningText(r.miniMax, evs) + ReasonOf(e));
  }

  lemma {:induction false} DeltaFollows(r: Read, evs: seq<Event>, e: Event)
    requires Follows(r, r.miniMax, evs) && Good(e) && e.Event? && e.choice.Some?
    ensures var z := DeltaStep(Metered(r, e.usage, e.warn), e.choice.value.delta); z.Go? && Follows(z.r, r.miniMax, evs + [e])
  {
    var r1 := Metered(r, e.usage, e.warn);
    Metering(r, CallsOf(evs), e.usage, e.warn);
    DeltaReads(r1, CallsOf(evs), e.choice.value.delta, ReasonOf(e));
    FollowsSnoc(r, evs, e, r1, DeltaStep(r1, e.choice.value.delta).r);
  }

  /** Every event short of the last is followed. */
  lemma {:induction false} EventFollows(r: Read, evs: seq<Event>, e: Event)
    requires Follows(r, r.miniMax, evs) && Good(e) && !Ends(e)
    ensures var z := Process(r, e); !z.stop && z.err.None? && Follows(z.r, r.miniMax, evs + [e])
  {
    var ds := CallsOf(evs);
    assert (evs + [e])[..|evs|] == evs;
    Empty(VisibleText(r.miniMax, evs));
    Empty(ReasoningText(r.miniMax, evs));
    assert ds + [] == ds;
    if e.Event? && e.choice.Some? {
      DeltaFollows(r, evs, e);
    } else if e.Event? {
      Metering(r, ds, e.usage, e.warn);
    }
  }

  // ---------------------------------------------------------------- the last event

  /** A call that is finished, with an ID made up if none came. */
  function Done(ds: seq<CallDelta>, i: int): ToolCall {
    Gathered(ds, i).(id := FinalId(ds, i))
  }

  /** The finished calls, as chunks. */
  function FinalChunks(ds: seq<CallDelta>, ids: seq<int>): (r: seq<Chunk>)
    ensures |r| == |ids|
  {
    seq(|ids|, k requires 0 <= k < |ids| => CallChunk(Some(Done(ds, ids[k]))))
  }

  lemma {:induction false} FinalCallSent(r: Read, ds: seq<CallDelta>, i: int)
    requires Live(r) && i in r.acc && r.acc[i] == Gathered(ds, i)
    ensures var z := FinalCall(r, i); z.Go? && Live(z.r) && z.r.sent == r.sent + [CallChunk(Some(Done(ds, i)))] && z.r.acc == r.acc[i := Done(ds, i)]
  {
  }

  lemma {:induction false} FinalChunksSnoc(ds: seq<CallDelta>, p: seq<int>, i: int)
    ensures FinalChunks(ds, p + [i]) == FinalChunks(ds, p) + [CallChunk(Some(Done(ds, i)))]
  {
  }

  ghost predicate Distinct(ids: seq<int>) {
    forall j, k :: 0 <= j < k < |ids| ==> ids[j] != ids[k]
  }

  /** The finished calls `p` have gone out, and the others are still as they were gathered. */
  ghost predicate SentDone(r: Read, ds: seq<CallDelta>, p: seq<int>, z: Step) {
    && z.Go? && Live(z.r) && z.r.sent == r.sent + FinalChunks(ds, p)
    && forall i :: i in r.acc && i !in p ==> i in z.r.acc && z.r.acc[i] == r.acc[i]
  }

  lemma {:induction false} SentDoneMore(r: Read, ds: seq<CallDelta>, p: seq<int>, i: int)
    requires SentDone(r, ds, p, FinalCalls(r, p)) && i in r.acc && i !in p && r.acc[i] == Gathered(ds, i)
    ensures SentDone(r, ds, p + [i], FinalCall(FinalCalls(r, p).r, i))
  {
    FinalCallSent(FinalCalls(r, p).r, ds, i);
    FinalChunksSnoc(ds, p, i);
  }

  lemma {:induction false} FinalCallsSent(r: Read, ds: seq<CallDelta>, ids: seq<int>)
    requires Live(r) && (forall i :: i in ids ==> i in r.acc && r.acc[i] == Gathered(ds, i)) && Distinct(ids)
    ensures SentDone(r, ds, ids, FinalCalls(r, ids))
    decreases ids
  {
    if ids == [] {
      assert r.sent + [] == r.sent;
    } else {
      var p, i := ids[..|ids| - 1], ids[|ids| - 1];
      FinalCallsSent(r, ds, p);
      assert i !in p && i in ids && p + [i] == ids;
      SentDoneMore(r, ds, p, i);
    }
  }

  // ---------------------------------------------------------------- which arguments arrive

  /** An earlier call was announced with the same ID, and takes all that is sent to it. */
  predicate Shadowed(ans: seq<Announcement>, k: nat)
    requires k < |ans|
  {
    exists j :: 0 <= j < k && ans[j].id == ans[k].id
  }

  /** The arguments of the last of the finished calls that has this ID. */
  function LastArgs(ds: seq<CallDelta>, ids: seq<int>, id: string): string {
    if ids == [] then ""
    else if FinalId(ds, ids[|ids| - 1]) == id then Args(ds, ids[|ids| - 1])
    else LastArgs(ds, ids[..|ids| - 1], id)
  }

  /** The calls of the message after the finished calls `ids` have come in. */
  function Received(ds: seq<CallDelta>, ans: seq<Announcement>, ids: seq<int>): (r: seq<ToolCall>)
    ensures |r| == |ans|
  {
    seq(|ans|, k requires 0 <= k < |ans| =>
      ToolCall(ans[k].id, "function", ans[k].name, if Shadowed(ans, k) then "" else LastArgs(ds, ids, ans[k].id)))
  }

  lemma {:induction false} FirstWith(ans: seq<Announcement>, id: string) returns (m: nat)
    ensures m <= |ans| && (m < |ans| ==> ans[m].id == id) && forall j :: 0 <= j < m ==> ans[j].id != id
    decreases ans
  {
    if ans == [] || ans[0].id == id {
      m := 0;
    } else {
      var n := FirstWith(ans[1..], id);
      m := n + 1;
      assert forall j :: 0 < j < m ==> ans[j] == ans[1..][j - 1];
    }
  }

  lemma {:induction false} ReceivedStep(ds: seq<CallDelta>, ans: seq<Announcement>, p: seq<int>, i: int)
    ensures SetArgs(Received(ds, ans, p), FinalId(ds, i), Args(ds, i)) == Received(ds, ans, p + [i])
  {
    var id, a, b := FinalId(ds, i), Received(ds, ans, p), Received(ds, ans, p + [i]);
    var m := FirstWith(ans, id);
    FirstMatch(a, id, Args(ds, i), m);
    assert (p + [i])[..|p|] == p;
    forall k | 0 <= k < |ans|
      ensures b[k] == if k == m then a[k].(arguments := Args(ds, i)) else a[k]
    {
      if m < k && ans[k].id == id {
        assert Shadowed(ans, k);
      }
    }
  }

  lemma {:induction false} AllReceived(d: Draft, ds: seq<CallDelta>, ans: seq<Announcement>, ids: seq<int>)
    requires d.calls == Bare(ans)
    ensures AbsorbAll(d, FinalChunks(ds, ids)) == d.(calls := Received(ds, ans, ids))
    decreases ids
  {
    if ids == [] {
      assert Received(ds, ans, ids) == Bare(ans);
    } else {
      var p, i := ids[..|ids| - 1], ids[|ids| - 1];
      AllReceived(d, ds, ans, p);
      assert p + [i] == ids;
      FinalChunksSnoc(ds, p, i);
      AbsorbSnoc(d, FinalChunks(ds, p), CallChunk(Some(Done(ds, i))));
      ReceivedStep(ds, ans, p, i);
    }
  }

  // ---------------------------------------------------------------- the message

  /**
   The message of an answer.  Only a finishing event sends the finished calls and the thought
   still held back; without one the calls stay as they were announced.
   */
  function MessageOf(miniMax: bool, evs: seq<Event>, finished: bool): Draft {
    var ds := CallsOf(evs);
    if finished then
      Draft(VisibleText(miniMax, evs), ReasoningText(miniMax, evs) + HeldBack(miniMax, evs), Received(ds, Announcements(ds), Seen(ds)))
    else
      Draft(VisibleText(miniMax, evs), ReasoningText(miniMax, evs), Bare(Announcements(ds)))
  }

  /** The reader after its last thought has been sent. */
  function LastThought(r: Read): Read {
    var o := Think.Flushed(r.think);
    SendReasoning(r.(think := o.next), o.thought).r
  }

  lemma {:induction false} LastThoughtSent(r: Read, evs: seq<Event>)
    requires Follows(r, r.miniMax, evs)
    ensures SendReasoning(r.(think := Think.Flushed(r.think).next), Think.Flushed(r.think).thought).Go?
    ensures var y := LastThought(r);
            && Live(y) && Tracks(y, CallsOf(evs))
            && TextOf(y.sent) == VisibleText(r.miniMax, evs)
            && ReasoningOf(y.sent) == ReasoningText(r.miniMax, evs) + HeldBack(r.miniMax, evs)
  {
    var o := Think.Flushed(r.think);
    Reasoning(r.(think := o.next), CallsOf(evs), o.thought);
  }

  lemma {:induction false} FinishSends(r: Read, evs: seq<Event>)
    requires Follows(r, r.miniMax, evs)
    ensures var z, ds := Finish(r), CallsOf(evs);
            z.stop && z.err.None? && z.r.sent == LastThought(r).sent + FinalChunks(ds, Seen(ds)) + [DoneChunk]
  {
    LastThoughtSent(r, evs);
    var y, ds := LastThought(r), CallsOf(evs);
    SeenDistinct(ds);
    FinalCallsSent(y, ds, Seen(ds));
  }

  lemma {:induction false} FinalEmits(sent: seq<Chunk>, ds: seq<CallDelta>, ids: seq<int>, quit: nat -> bool, chat: Option<Draft>)
    requires Calm(sent) && forall n :: !quit(n)
    ensures Emit(BLANK, sent + FinalChunks(ds, ids) + [DoneChunk], 0, quit, chat) == [Msg(AbsorbAll(BLANK, sent + FinalChunks(ds, ids)))]
  {
    EmitDone(BLANK, sent + FinalChunks(ds, ids), 0, quit, chat);
  }

  lemma {:induction false} FinishDelivers(r: Read, evs: seq<Event>, quit: nat -> bool, chat: Option<Draft>)
    requires Follows(r, r.miniMax, evs) && forall n :: !quit(n)
    ensures Finish(r).stop && Finish(r).err.None?
    ensures Emit(BLANK, Finish(r).r.sent, 0, quit, chat) == [Msg(MessageOf(r.miniMax, evs, true))]
  {
    FinishSends(r, evs);
    LastThoughtSent(r, evs);
    var y, ds := LastThought(r), CallsOf(evs);
    FinalAbsorbed(y, ds);
    FinalEmits(y.sent, ds, Seen(ds), quit, chat);
  }

  lemma {:induction false} FinalAbsorbed(y: Read, ds: seq<CallDelta>)
    requires Tracks(y, ds)
    ensures AbsorbAll(BLANK, y.sent + FinalChunks(ds, Seen(ds)))
         == Draft(TextOf(y.sent), ReasoningOf(y.sent), Received(ds, Announcements(ds), Seen(ds)))
  {
    DraftOf(y.sent);
    AllReceived(Draft(TextOf(y.sent), ReasoningOf(y.sent), StartsOf(y.sent)), ds, Announcements(ds), Seen(ds));
    AbsorbCat(BLANK, y.sent, FinalChunks(ds, Seen(ds)));
  }

  /** Without a finishing event, at the `[DONE]` mark or at the end of the stream. */
  lemma {:induction false} BareDelivers(r: Read, evs: seq<Event>, quit: nat -> bool, chat: Option<Draft>)
    requires Follows(r, r.miniMax, evs) && forall n :: !quit(n)
    ensures Emit(BLANK, r.sent, 0, quit, chat) == [Msg(MessageOf(r.miniMax, evs, false))]
    ensures Emit(BLANK, Sent(r, DoneChunk).sent, 0, quit, chat) == [Msg(MessageOf(r.miniMax, evs, false))]
  {
    DraftOf(r.sent);
    EmitDone(BLANK, r.sent, 0, quit, chat);
    EndLikeDone(BLANK, r.sent, 0, quit, chat);
  }

  // ---------------------------------------------------------------- the whole answer

  /** The payloads that are read: up to a finishing one, the `[DONE]` mark or the end. */
  function Heard(lines: seq<Failover.Line>): seq<Event> {
    if lines == [] || lines[0].DoneMark? then []
    else if lines[0].Skipped? then Heard(lines[1..])
    else if Ends(lines[0].ev) then [lines[0].ev]
    else [lines[0].ev] + Heard(lines[1..])
  }

  /** Whether a finishing payload is among them. */
  predicate Finished(lines: seq<Failover.Line>) {
    lines != [] && !lines[0].DoneMark? && ((lines[0].Data? && Ends(lines[0].ev)) || Finished(lines[1..]))
  }

  predicate GoodLines(lines: seq<Failover.Line>) {
    forall k :: 0 <= k < |lines| && lines[k].Data? ==> Good(lines[k].ev)
  }

  lemma {:induction false} LastDelivers(r: Read, evs: seq<Event>, e: Event, quit: nat -> bool, chat: Option<Draft>)
    requires Follows(r, r.miniMax, evs) && Good(e) && Ends(e) && forall n :: !quit(n)
    ensures Process(r, e).stop && Process(r, e).err.None?
    ensures Emit(BLANK, Process(r, e).r.sent, 0, quit, chat) == [Msg(MessageOf(r.miniMax, evs + [e], true))]
  {
    DeltaFollows(r, evs, e);
    FinishDelivers(DeltaStep(Metered(r, e.usage, e.warn), e.choice.value.delta).r, evs + [e], quit, chat);
  }

  /** Reading `lines` after `evs` leads the bridge to the message of all that was heard. */
  ghost predicate Delivers(r: Read, evs: seq<Event>, lines: seq<Failover.Line>, quit: nat -> bool, chat: Option<Draft>) {
    var x := Failover.Scan(r, lines);
    !x.Failed? && Emit(BLANK, x.r.sent, 0, quit, chat) == [Msg(MessageOf(r.miniMax, evs + Heard(lines), Finished(lines)))]
  }

  lemma {:induction false} DataDelivers(r: Read, evs: seq<Event>, lines: seq<Failover.Line>, quit: nat -> bool, chat: Option<Draft>)
    requires lines != [] && lines[0].Data? && !Ends(lines[0].ev)
    requires var p := Process(r, lines[0].ev);
             !p.stop && p.err.None? && p.r.miniMax == r.miniMax && Delivers(p.r, evs + [lines[0].ev], lines[1..], quit, chat)
    ensures Delivers(r, evs, lines, quit, chat)
  {
    var e := lines[0].ev;
    assert evs + [e] + Heard(lines[1..]) == evs + ([e] + Heard(lines[1..]));
  }

  lemma {:induction false} EndDelivers(r: Read, evs: seq<Event>, lines: seq<Failover.Line>, quit: nat -> bool, chat: Option<Draft>)
    requires Follows(r, r.miniMax, evs) && (lines == [] || lines[0].DoneMark?) && forall n :: !quit(n)
    ensures Delivers(r, evs, lines, quit, chat)
  {
    assert evs + [] == evs;
    BareDelivers(r, evs, quit, chat);
  }

  lemma {:induction false} ScanDelivers(r: Read, evs: seq<Event>, lines: seq<Failover.Line>, quit: nat -> bool, chat: Option<Draft>)
    requires Follows(r, r.miniMax, evs) && GoodLines(lines) && forall n :: !quit(n)
    ensures Delivers(r, evs, lines, quit, chat)
    decreases lines
  {
    if lines == [] || lines[0].DoneMark? {
      EndDelivers(r, evs, lines, quit, chat);
    } else if lines[0].Skipped? {
      ScanDelivers(r, evs, lines[1..], quit, chat);
    } else if Ends(lines[0].ev) {
      LastDelivers(r, evs, lines[0].ev, quit, chat);
    } else {
      EventFollows(r, evs, lines[0].ev);
      ScanDelivers(Process(r, lines[0].ev).r, evs + [lines[0].ev], lines[1..], quit, chat);
      DataDelivers(r, evs, lines, quit, chat);
    }
  }

  lemma {:induction false} FreshFollows(ok: nat -> bool, miniMax: bool)
    requires forall n :: ok(n)
    ensures Follows(Fresh(ok, miniMax), miniMax, [])
  {
  }

  /**
   Every answer without errors or cancellation, whatever its fragments and however it ends: the
   bridge emits exactly one message, and it is this one.
   */
  lemma {:induction false} AnswerDelivered(ok: nat -> bool, miniMax: bool, lines: seq<Failover.Line>, quit: nat -> bool, chat: Option<Draft>)
    requires (forall n :: ok(n)) && (forall n :: !quit(n)) && GoodLines(lines)
    ensures var x := Failover.ReadStream(Fresh(ok, miniMax), Failover.Body(lines, None, false));
            x.err.None? && Emit(BLANK, x.r.sent, 0, quit, chat) == [Msg(MessageOf(miniMax, Heard(lines), Finished(lines)))]
  {
    FreshFollows(ok, miniMax);
    ScanDelivers(Fresh(ok, miniMax), [], lines, quit, chat);
    assert [] + Heard(lines) == Heard(lines);
  }

  /** A response torn off before its finishing event gives the same message as one that just ends there. */
  lemma {:induction false} TornDelivered(ok: nat -> bool, miniMax: bool, lines: seq<Failover.Line>, reset: bool, quit: nat -> bool, chat: Option<Draft>)
    requires (forall n :: ok(n)) && (forall n :: !quit(n)) && GoodLines(lines) && !Finished(lines)
    ensures var x := Failover.ReadStream(Fresh(ok, miniMax), Failover.Body(lines, Some(reset), false));
            x.err.Some? && Emit(BLANK, x.r.sent, 0, quit, chat) == [Msg(MessageOf(miniMax, Heard(lines), false))]
  {
    FreshFollows(ok, miniMax);
    ScanDelivers(Fresh(ok, miniMax), [], lines, quit, chat);
    assert [] + Heard(lines) == Heard(lines);
    NotStopped(Fresh(ok, miniMax), lines);
  }

  lemma {:induction false} NotStopped(r: Read, lines: seq<Failover.Line>)
    requires !Finished(lines)
    ensures !Failover.Scan(r, lines).Stopped?
    decreases lines
  {
    if lines != [] && !lines[0].DoneMark? {
      if lines[0].Data? {
        NotStopped(Process(r, lines[0].ev).r, lines[1..]);
      } else {
        NotStopped(r, lines[1..]);
      }
    }
  }

  // ---------------------------------------------------------------- when arguments reach their call

  lemma {:induction false} AnnouncedOnce(ds: seq<CallDelta>)
    ensures forall k :: 0 <= k < |Announcements(ds)| ==>
              Announcements(ds)[k].index in Seen(ds) && NameOf(ds, Announcements(ds)[k].index) != ""
    ensures forall j, k :: 0 <= j < k < |Announcements(ds)| ==> Announcements(ds)[j].index != Announcements(ds)[k].index
    decreases ds
  {
    if ds != [] {
      AnnouncedOnce(ds[..|ds| - 1]);
    }
  }

  /** No call was announced with the ID of another, or with the ID another one ends with. */
  ghost predicate Apart(ds: seq<CallDelta>) {
    var ans := Announcements(ds);
    && (forall j, k :: 0 <= j < k < |ans| && ans[j].id == ans[k].id ==> ans[k].id == "")
    && (forall k, i :: 0 <= k < |ans| && i in Seen(ds) && i != ans[k].index ==> ans[k].id != FinalId(ds, i))
  }

  lemma {:induction false} OnlyWriter(ds: seq<CallDelta>, ids: seq<int>, id: string, i: int)
    requires forall j :: j in ids && j != i ==> FinalId(ds, j) != id
    ensures LastArgs(ds, ids, id) == if i in ids && FinalId(ds, i) == id then Args(ds, i) else ""
    decreases ids
  {
    if ids != [] {
      OnlyWriter(ds, ids[..|ids| - 1], id, i);
      assert i in ids <==> i in ids[..|ids| - 1] || i == ids[|ids| - 1];
    }
  }

  /**
   The bridge matches arguments by ID.  If IDs of different calls do not mix, a call of a finished
   answer has its arguments when the ID it was announced with is the ID it ends with, and
   otherwise none.
   */
  lemma {:induction false} IdDecidesArguments(miniMax: bool, evs: seq<Event>, k: nat)
    requires Apart(CallsOf(evs)) && k < |Announcements(CallsOf(evs))|
    ensures var ds := CallsOf(evs);
            var a, calls := Announcements(ds)[k], MessageOf(miniMax, evs, true).calls;
            && |calls| == |Announcements(ds)|
            && calls[k] == ToolCall(a.id, "function", a.name, if a.id == FinalId(ds, a.index) then Args(ds, a.index) else "")
  {
    var ds := CallsOf(evs);
    var ans := Announcements(ds);
    AnnouncedOnce(ds);
    OnlyWriter(ds, Seen(ds), ans[k].id, ans[k].index);
  }

  /** A call that changes its ID after it was announced loses its arguments. */
  lemma {:induction false} NewIdLosesArguments()
    ensures var d := Delta("", "", "", [CallDelta(0, "a", "f", "1"), CallDelta(0, "b", "", "2")]);
            MessageOf(false, [Event(None, None, None, Some(Choice(d, Some("stop"))))], true).calls == [ToolCall("a", "function", "f", "")]
  {
    var a, b := CallDelta(0, "a", "f", "1"), CallDelta(0, "b", "", "2");
    var e := Event(None, None, None, Some(Choice(Delta("", "", "", [a, b]), Some("stop"))));
    assert [e][..0] == [];
    assert CallsOf([e]) == [] + [a] + [b];
    SnocParts([], a);
    SnocParts([] + [a], b);
    SnocAt([], a, 0);
    SnocAt([] + [a], b, 0);
    assert Apart(CallsOf([e]));
    IdDecidesArguments(false, [e], 0);
  }

  // ---------------------------------------------------------------- clean answers

  /** The first fragment of index `i`. */
  function First(ds: seq<CallDelta>, i: int): CallDelta {
    if ds == [] then CallDelta(i, "", "", "")
    else if i in Seen(ds[..|ds| - 1]) then First(ds[..|ds| - 1], i)
    else ds[|ds| - 1]
  }

  /**
   Each index's first fragment carries its final name and ID, neither empty, and IDs of
   different indices differ.
   */
  ghost predicate Clean(ds: seq<CallDelta>) {
    && (forall k :: 0 <= k < |ds| ==> Agrees(First(ds, ds[k].index), ds[k]))
    && (forall i, j :: i in Seen(ds) && j in Seen(ds) && i != j ==> First(ds, i).id != First(ds, j).id)
  }

  predicate Agrees(f: CallDelta, d: CallDelta) {
    f.id != "" && f.name != "" && (d.id == "" || d.id == f.id) && (d.name == "" || d.name == f.name)
  }

  lemma {:induction false} SeenHas(ds: seq<CallDelta>, k: nat)
    requires k < |ds|
    ensures ds[k].index in Seen(ds)
    decreases ds
  {
    if k < |ds| - 1 {
      SeenHas(ds[..|ds| - 1], k);
    }
  }

  lemma {:induction false} CleanPrefix(ds: seq<CallDelta>)
    requires ds != [] && Clean(ds)
    ensures Clean(ds[..|ds| - 1])
  {
    var p := ds[..|ds| - 1];
    forall k | 0 <= k < |p|
      ensures Agrees(First(p, p[k].index), p[k])
    {
      SeenHas(p, k);
      assert Agrees(First(ds, ds[k].index), ds[k]);
    }
    forall i, j | i in Seen(p) && j in Seen(p) && i != j
      ensures First(p, i).id != First(p, j).id
    {
      assert First(ds, i) == First(p, i) && First(ds, j) == First(p, j);
    }
  }

  /** The calls as the first fragments announce them. */
  function FirstCalls(ds: seq<CallDelta>, ids: seq<int>): (r: seq<Announcement>)
    ensures |r| == |ids|
  {
    seq(|ids|, k requires 0 <= k < |ids| => Announcement(ids[k], First(ds, ids[k]).id, First(ds, ids[k]).name))
  }

  lemma {:induction false} CleanKnown(ds: seq<CallDelta>)
    requires Clean(ds)
    ensures forall i :: i in Seen(ds) ==> IdOf(ds, i) == First(ds, i).id != "" && NameOf(ds, i) == First(ds, i).name != ""
    decreases ds
  {
    if ds != [] {
      CleanPrefix(ds);
      CleanKnown(ds[..|ds| - 1]);
      var d := ds[|ds| - 1];
      assert Agrees(First(ds, d.index), d);
      if d.index !in Seen(ds[..|ds| - 1]) {
        Unseen(ds[..|ds| - 1], d.index);
      }
    }
  }

  lemma {:induction false} FirstCallsKept(ds: seq<CallDelta>)
    requires ds != []
    ensures var p := ds[..|ds| - 1]; FirstCalls(ds, Seen(p)) == FirstCalls(p, Seen(p))
  {
  }

  lemma {:induction false} FirstCallsSnoc(ds: seq<CallDelta>, ids: seq<int>, i: int)
    ensures FirstCalls(ds, ids + [i]) == FirstCalls(ds, ids) + [Announcement(i, First(ds, i).id, First(ds, i).name)]
  {
  }

  lemma {:induction false} CleanAnnounced(ds: seq<CallDelta>)
    requires Clean(ds)
    ensures Announcements(ds) == FirstCalls(ds, Seen(ds))
    decreases ds
  {
    if ds != [] {
      var p, d := ds[..|ds| - 1], ds[|ds| - 1];
      CleanPrefix(ds);
      CleanAnnounced(p);
      FirstCallsKept(ds);
      if d.index in Seen(p) {
        CleanKnown(p);
      } else {
        Unseen(p, d.index);
        assert Agrees(First(ds, d.index), d);
        FirstCallsSnoc(ds, Seen(p), d.index);
      }
    }
  }

  /** The calls of a clean answer, with all their argument fragments. */
  function FullCalls(ds: seq<CallDelta>): (r: seq<ToolCall>)
    ensures |r| == |Seen(ds)|
  {
    seq(|Seen(ds)|, k requires 0 <= k < |Seen(ds)| =>
      var f := First(ds, Seen(ds)[k]);
      ToolCall(f.id, "function", f.name, Args(ds, Seen(ds)[k])))
  }

  lemma {:induction false} CleanApart(ds: seq<CallDelta>)
    requires Clean(ds)
    ensures Apart(ds)
  {
    CleanAnnounced(ds);
    CleanKnown(ds);
    SeenDistinct(ds);
  }

  lemma {:induction false} CleanFull(miniMax: bool, evs: seq<Event>)
    requires Clean(CallsOf(evs))
    ensures MessageOf(miniMax, evs, true).calls == FullCalls(CallsOf(evs))
  {
    var ds := CallsOf(evs);
    CleanAnnounced(ds);
    CleanKnown(ds);
    CleanApart(ds);
    forall k | 0 <= k < |Seen(ds)|
      ensures MessageOf(miniMax, evs, true).calls[k] == FullCalls(ds)[k]
    {
      IdDecidesArguments(miniMax, evs, k);
    }
  }

  /** Everything the events said: all text, all reasoning, and all calls with all their arguments. */
  function Everything(miniMax: bool, evs: seq<Event>): Draft {
    Draft(VisibleText(miniMax, evs), ReasoningText(miniMax, evs) + HeldBack(miniMax, evs), FullCalls(CallsOf(evs)))
  }

  /** There are neither arguments nor thoughts that only a finishing event would send. */
  ghost predicate NothingPending(miniMax: bool, evs: seq<Event>) {
    HeldBack(miniMax, evs) == "" && NoArguments(CallsOf(evs))
  }

  ghost predicate NoArguments(ds: seq<CallDelta>) {
    forall i :: i in Seen(ds) ==> Args(ds, i) == ""
  }

  lemma {:induction false} BareIsFull(ds: seq<CallDelta>)
    requires Clean(ds)
    ensures Bare(Announcements(ds)) == FullCalls(ds) <==> NoArguments(ds)
  {
    CleanAnnounced(ds);
    var b, f := Bare(Announcements(ds)), FullCalls(ds);
    assert forall k :: 0 <= k < |Seen(ds)| ==> b[k] == f[k].(arguments := "") && f[k].arguments == Args(ds, Seen(ds)[k]);
    if b == f {
      forall i | i in Seen(ds)
        ensures Args(ds, i) == ""
      {
        var k :| 0 <= k < |Seen(ds)| && Seen(ds)[k] == i;
        assert b[k] == f[k];
      }
    }
  }

  /**
   End to end, without errors or cancellation: if the first fragment of each call has its name
   and an ID of its own, then whatever the interleaving of fragments the one message has all the
   text, all the reasoning, and one call per index, in the order first seen, with all its
   arguments, if and only if a finishing event is read or has nothing left to send.
   */
  lemma {:induction false} EndToEnd(ok: nat -> bool, miniMax: bool, lines: seq<Failover.Line>, quit: nat -> bool, chat: Option<Draft>)
    requires (forall n :: ok(n)) && (forall n :: !quit(n)) && GoodLines(lines) && Clean(CallsOf(Heard(lines)))
    ensures var x := Failover.ReadStream(Fresh(ok, miniMax), Failover.Body(lines, None, false));
            (Emit(BLANK, x.r.sent, 0, quit, chat) == [Msg(Everything(miniMax, Heard(lines)))])
            <==> (Finished(lines) || NothingPending(miniMax, Heard(lines)))
  {
    AnswerDelivered(ok, miniMax, lines, quit, chat);
    CompleteIff(miniMax, Heard(lines), Finished(lines));
  }

  lemma {:induction false} CompleteIff(miniMax: bool, evs: seq<Event>, finished: bool)
    requires Clean(CallsOf(evs))
    ensures MessageOf(miniMax, evs, finished) == Everything(miniMax, evs) <==> (finished || NothingPending(miniMax, evs))
  {
    if finished {
      CleanFull(miniMax, evs);
    } else {
      BareIsFull(CallsOf(evs));
      NothingAdded(ReasoningText(miniMax, evs), HeldBack(miniMax, evs));
      var m, e := MessageOf(miniMax, evs, false), Everything(miniMax, evs);
      assert m == e <==> (m.reasoning == e.reasoning && m.calls == e.calls);
    }
  }

  lemma {:induction false} NothingAdded(a: string, b: string)
    ensures a == a + b <==> b == ""
  {
    assert |a + b| == |a| + |b|;
    Empty(a);
  }

  // ---------------------------------------------------------------- MiniMax text and the splitter

  function Pushes(evs: seq<Event>): seq<Think.Op> {
    if evs == [] then []
    else
      Pushes(evs[..|evs| - 1])
      + (if ContentOf(evs[|evs| - 1]) == "" then [] else [Think.Push(ContentOf(evs[|evs| - 1]))])
  }

  function ContentText(evs: seq<Event>): string {
    if evs == [] then "" else ContentText(evs[..|evs| - 1]) + ContentOf(evs[|evs| - 1])
  }

  /** What is split off the text, without the reasoning deltas. */
  function ThoughtText(evs: seq<Event>): string {
    if evs == [] then ""
    else
      var c := ContentOf(evs[|evs| - 1]);
      ThoughtText(evs[..|evs| - 1]) + (if c != "" then Think.Pushed(Splitting(evs[..|evs| - 1]), c).thought else "")
  }

  /** The text of a MiniMax answer goes through the splitter fragment by fragment. */
  lemma {:induction false} TextIsSplit(evs: seq<Event>)
    ensures var run := Think.Run(Think.FRESH, Pushes(evs));
            && Splitting(evs) == run.next && VisibleText(true, evs) == run.visible && ThoughtText(evs) == run.thought
            && Think.Input(Pushes(evs)) == ContentText(evs)
    decreases evs
  {
    if evs != [] {
      var p, c := evs[..|evs| - 1], ContentOf(evs[|evs| - 1]);
      TextIsSplit(p);
      if c == "" {
        assert Pushes(p) + [] == Pushes(p);
        Empty(VisibleText(true, p));
        Empty(ThoughtText(p));
        Empty(ContentText(p));
      } else {
        assert (Pushes(p) + [Think.Push(c)])[..|Pushes(p)|] == Pushes(p);
      }
    }
  }

  lemma {:induction false} ReasoningIsThought(evs: seq<Event>)
    requires forall k :: 0 <= k < |evs| ==> ReasonOf(evs[k]) == ""
    ensures ReasoningText(true, evs) == ThoughtText(evs)
    decreases evs
  {
    if evs != [] {
      ReasoningIsThought(evs[..|evs| - 1]);
      Empty(ReasoningText(true, evs[..|evs| - 1]));
    }
  }

  /**
   A MiniMax answer is delivered without loss: its text is the segments that were shown and
   those that were taken for thought, with the dropped tags put back, and what is still held
   back.  Unless reasoning also comes separately, the reasoning of the message is those thoughts.
   */
  lemma {:induction false} MiniMaxLossless(evs: seq<Event>)
    ensures var ps := Think.Run(Think.FRESH, Pushes(evs)).pieces;
            && ContentText(evs) == Think.Flatten(ps) + HeldBack(true, evs)
            && VisibleText(true, evs) == Think.Visibles(ps) && ThoughtText(evs) == Think.Thoughts(ps)
            && Think.Brackets(Think.Outer, ps) == Think.SideOf(Splitting(evs))
            && ((forall k :: 0 <= k < |evs| ==> ReasonOf(evs[k]) == "") ==> ReasoningText(true, evs) == Think.Thoughts(ps))
  {
    TextIsSplit(evs);
    Think.Lossless(Pushes(evs));
    if forall k :: 0 <= k < |evs| ==> ReasonOf(evs[k]) == "" {
      ReasoningIsThought(evs);
    }
  }
}
