/**
 `Bridge.stream`: assembles the chunks of one answer into a message.
 */
module Bridge {
  import opened Options
  import opened Protocol

  /** What has been gathered so far. */
  datatype Draft = Draft(content: string, reasoning: string, calls: seq<ToolCall>)

  const BLANK := Draft("", "", [])
  const RECOVERING := Draft("[流中断，正在恢复...]", "", [])
  const NO_ERROR := Failure("stream failed without an error", false)

  datatype Emission = Msg(draft: Draft) | Err(error: Failure)

  // ---------------------------------------------------------------- specification

  /** Sets the arguments of the first call with this ID. */
  function SetArgs(calls: seq<ToolCall>, id: string, arguments: string): (r: seq<ToolCall>)
    ensures |r| == |calls|
  {
    if calls == [] then []
    else if calls[0].id == id then [calls[0].(arguments := arguments)] + calls[1..]
    else [calls[0]] + SetArgs(calls[1..], id, arguments)
  }

  function Absorb(d: Draft, ch: Chunk): Draft {
    match ch
    case TextChunk(text) => d.(content := d.content + text)
    case ReasoningChunk(text) => d.(reasoning := d.reasoning + text)
    case StartChunk(Some(tc)) => d.(calls := d.calls + [ToolCall(tc.id, "function", tc.name, "")])
    case CallChunk(Some(tc)) => d.(calls := SetArgs(d.calls, tc.id, tc.arguments))
    case _ => d
  }

  /**
   What is sent on for the chunks of one answer.  `quit(i)` says that cancellation is noticed
   before chunk `i`; `chat` is the answer of the recovery call after an interruption.
   */
  function Emit(d: Draft, chs: seq<Chunk>, i: nat, quit: nat -> bool, chat: Option<Draft>): seq<Emission>
    decreases chs
  {
    if quit(i) then []
    else if chs == [] then [Msg(d)]
    else
      match chs[0]
      case DoneChunk => [Msg(d)]
      case ErrorChunk(Some(e)) =>
        if e.interrupted then [Msg(RECOVERING)] + (if chat.Some? then [Msg(chat.value)] else []) else [Err(e)]
      case ErrorChunk(None) => [Err(NO_ERROR)]
      case ch => Emit(Absorb(d, ch), chs[1..], i + 1, quit, chat)
  }

  // ---------------------------------------------------------------- the operation

  /** Only the first call with the ID is touched. */
  lemma {:induction false} FirstMatch(calls: seq<ToolCall>, id: string, arguments: string, i: nat)
    requires i <= |calls| && (forall j :: 0 <= j < i ==> calls[j].id != id) && (i < |calls| ==> calls[i].id == id)
    ensures SetArgs(calls, id, arguments) == if i == |calls| then calls else calls[i := calls[i].(arguments := arguments)]
    decreases calls
  {
    if i > 0 {
      FirstMatch(calls[1..], id, arguments, i - 1);
    }
  }

  method MatchArgs(calls: seq<ToolCall>, id: string, arguments: string) returns (r: seq<ToolCall>)
    ensures r == SetArgs(calls, id, arguments)
  {
    r := calls;
    for i := 0 to |r|
      invariant r == calls && forall j :: 0 <= j < i ==> calls[j].id != id
    {
      if r[i].id == id {
        FirstMatch(calls, id, arguments, i);
        r := r[i := r[i].(arguments := arguments)];
        return;
      }
    }
    FirstMatch(calls, id, arguments, |calls|);
  }

  method Stream(chs: seq<Chunk>, quit: nat -> bool, chat: Option<Draft>) returns (out: seq<Emission>)
    ensures out == Emit(BLANK, chs, 0, quit, chat)
  {
    var fullContent, fullReasoning := "", "";
    var toolCalls: seq<ToolCall> := [];
    var i := 0;
    while true
      invariant 0 <= i <= |chs|
      invariant Emit(BLANK, chs, 0, quit, chat) == Emit(Draft(fullContent, fullReasoning, toolCalls), chs[i..], i, quit, chat)
      decreases |chs| - i
    {
      if quit(i) {
        return [];
      }
      if i == |chs| {
        return [Msg(Draft(fullContent, fullReasoning, toolCalls))];
      }
      var chunk := chs[i];
      assert chs[i..][0] == chunk && chs[i..][1..] == chs[i + 1..];
      match chunk {
      case TextChunk(text) => fullContent := fullContent + text;
      case ReasoningChunk(text) => fullReasoning := fullReasoning + text;
      case StartChunk(call) =>
        if call.Some? {
          toolCalls := toolCalls + [ToolCall(call.value.id, "function", call.value.name, "")];
        }
      case CallChunk(call) =>
        if call.Some? {
          toolCalls := MatchArgs(toolCalls, call.value.id, call.value.arguments);
        }
      case DoneChunk => return [Msg(Draft(fullContent, fullReasoning, toolCalls))];
      case ErrorChunk(error) =>
        if error.Some? && error.value.interrupted {
          out := [Msg(RECOVERING)];
          if chat.Some? {
            out := out + [Msg(chat.value)];
          }
          return;
        }
        if error.Some? {
          return [Err(error.value)];
        }
        return [Err(NO_ERROR)];
      case _ =>
      }
      i := i + 1;
    }
  }

  // ---------------------------------------------------------------- assembling

  function AbsorbAll(d: Draft, chs: seq<Chunk>): Draft
    decreases chs
  {
    if chs == [] then d else AbsorbAll(Absorb(d, chs[0]), chs[1..])
  }

  lemma {:induction false} AbsorbCat(d: Draft, a: seq<Chunk>, b: seq<Chunk>)
    ensures AbsorbAll(d, a + b) == AbsorbAll(AbsorbAll(d, a), b)
    decreases a
  {
    if a == [] {
      assert a + b == b;
    } else {
      assert (a + b)[1..] == a[1..] + b;
      AbsorbCat(Absorb(d, a[0]), a[1..], b);
    }
  }

  lemma {:induction false} AbsorbSnoc(d: Draft, a: seq<Chunk>, ch: Chunk)
    ensures AbsorbAll(d, a + [ch]) == Absorb(AbsorbAll(d, a), ch)
  {
    AbsorbCat(d, a, [ch]);
    assert [ch][1..] == [];
  }

  predicate Terminal(ch: Chunk) {
    ch.DoneChunk? || ch.ErrorChunk?
  }

  /** Up to the done chunk, the message is what the chunks before it amount to. */
  lemma {:induction false} EmitDone(d: Draft, chs: seq<Chunk>, i: nat, quit: nat -> bool, chat: Option<Draft>)
    requires (forall n :: !quit(n)) && forall k :: 0 <= k < |chs| ==> !Terminal(chs[k])
    ensures Emit(d, chs + [DoneChunk], i, quit, chat) == [Msg(AbsorbAll(d, chs))]
    decreases chs
  {
    var all := chs + [DoneChunk];
    if chs != [] {
      assert all[1..] == chs[1..] + [DoneChunk];
      EmitDone(Absorb(d, chs[0]), chs[1..], i + 1, quit, chat);
    }
  }

  /** A stream that just ends is taken for one that is done. */
  lemma {:induction false} EndLikeDone(d: Draft, chs: seq<Chunk>, i: nat, quit: nat -> bool, chat: Option<Draft>)
    ensures Emit(d, chs, i, quit, chat) == Emit(d, chs + [DoneChunk], i, quit, chat)
    decreases chs
  {
    if chs == [] {
      assert chs + [DoneChunk] == [DoneChunk];
    } else {
      assert (chs + [DoneChunk])[1..] == chs[1..] + [DoneChunk];
      EndLikeDone(Absorb(d, chs[0]), chs[1..], i + 1, quit, chat);
    }
  }

  /** The chunks before the first done chunk. */
  function BeforeDone(chs: seq<Chunk>): seq<Chunk> {
    if chs == [] || chs[0].DoneChunk? then [] else [chs[0]] + BeforeDone(chs[1..])
  }

  /** Where no error is sent, the bridge sees a whole answer. */
  lemma {:induction false} NoErrorEmits(d: Draft, chs: seq<Chunk>, i: nat, quit: nat -> bool, chat: Option<Draft>)
    requires (forall n :: !quit(n)) && forall k :: 0 <= k < |chs| ==> !chs[k].ErrorChunk?
    ensures Emit(d, chs, i, quit, chat) == [Msg(AbsorbAll(d, BeforeDone(chs)))]
    decreases chs
  {
    if chs != [] && !chs[0].DoneChunk? {
      NoErrorEmits(Absorb(d, chs[0]), chs[1..], i + 1, quit, chat);
      assert ([chs[0]] + BeforeDone(chs[1..]))[1..] == BeforeDone(chs[1..]);
    }
  }

  /** What the bridge makes of an error. */
  function OnError(e: Option<Failure>, chat: Option<Draft>): seq<Emission> {
    if e.None? then [Err(NO_ERROR)]
    else if e.value.interrupted then [Msg(RECOVERING)] + (if chat.Some? then [Msg(chat.value)] else [])
    else [Err(e.value)]
  }

  lemma {:induction false} EmitError(d: Draft, chs: seq<Chunk>, e: Option<Failure>, i: nat, quit: nat -> bool, chat: Option<Draft>)
    requires (forall n :: !quit(n)) && forall k :: 0 <= k < |chs| ==> !Terminal(chs[k])
    ensures Emit(d, chs + [ErrorChunk(e)], i, quit, chat) == OnError(e, chat)
    decreases chs
  {
    var all := chs + [ErrorChunk(e)];
    if chs != [] {
      assert all[1..] == chs[1..] + [ErrorChunk(e)];
      EmitError(Absorb(d, chs[0]), chs[1..], e, i + 1, quit, chat);
    }
  }

  // ---------------------------------------------------------------- cancellation

  /** The index of the chunk that ends the answer, or of the end of the channel. */
  function Last(chs: seq<Chunk>): (n: nat)
    ensures n <= |chs|
  {
    if chs == [] || Terminal(chs[0]) then 0 else 1 + Last(chs[1..])
  }

  /**
   For every channel: if cancellation is noticed before the chunk that ends the answer has been
   taken, nothing at all is sent on, and otherwise cancellation makes no difference.
   */
  lemma {:induction false} CancelledOrNot(d: Draft, chs: seq<Chunk>, i: nat, quit: nat -> bool, never: nat -> bool, chat: Option<Draft>)
    requires forall n :: !never(n)
    ensures Emit(d, chs, i, quit, chat)
         == if exists n :: i <= n <= i + Last(chs) && quit(n) then [] else Emit(d, chs, 0, never, chat)
    decreases chs
  {
    Shifted(d, chs, 0, i, never, chat);
    if !quit(i) && chs != [] && !Terminal(chs[0]) {
      CancelledOrNot(Absorb(d, chs[0]), chs[1..], i + 1, quit, never, chat);
      Shifted(Absorb(d, chs[0]), chs[1..], 0, 1, never, chat);
      assert (exists n :: i <= n <= i + Last(chs) && quit(n)) <==> exists n :: i + 1 <= n <= i + 1 + Last(chs[1..]) && quit(n);
    }
  }

  /** Without cancellation the count of chunks makes no difference. */
  lemma {:induction false} Shifted(d: Draft, chs: seq<Chunk>, i: nat, j: nat, never: nat -> bool, chat: Option<Draft>)
    requires forall n :: !never(n)
    ensures Emit(d, chs, i, never, chat) == Emit(d, chs, j, never, chat)
    decreases chs
  {
    if chs != [] && !Terminal(chs[0]) {
      Shifted(Absorb(d, chs[0]), chs[1..], i + 1, j + 1, never, chat);
    }
  }
}
