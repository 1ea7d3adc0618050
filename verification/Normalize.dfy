/**
 `NormalizeMessages`: repair a conversation before it goes on the wire, so that every tool
 call of an assistant turn is answered by exactly one tool message.
 */
module Normalize {
  import opened JsonAutomaton
  import opened JsonGrammar
  import opened JsonMended
  import opened JsonRepair
  import opened JsonSound
  import opened Options
  import opened Protocol

  const ASSISTANT := "assistant"
  const TOOL := "tool"
  const INTERRUPTED := "[no result: the previous turn was interrupted before this tool call completed]"

  predicate IsTurn(m: Message) {
    m.role == ASSISTANT && |m.toolCalls| > 0
  }

  predicate IsTool(m: Message) {
    m.role == TOOL
  }

  /** Call IDs are usable as keys: none empty, none repeated. */
  predicate Distinct(calls: seq<ToolCall>) {
    && (forall k :: 0 <= k < |calls| ==> calls[k].id != "")
    && (forall j, k :: 0 <= j < k < |calls| ==> calls[j].id != calls[k].id)
  }

  function Placeholder(tc: ToolCall): Message {
    Message(TOOL, INTERRUPTED, "", [], tc.id, tc.name, [])
  }

  // ---------------------------------------------------------------- specification of one turn

  /** The last result with the given ID. */
  function LastWith(rs: seq<Message>, id: string): Option<Message> {
    if rs == [] then None
    else if rs[|rs| - 1].toolCallID == id then Some(rs[|rs| - 1])
    else LastWith(rs[..|rs| - 1], id)
  }

  /** The last name a result with the given ID carries. */
  function LastName(rs: seq<Message>, id: string): Option<string> {
    if rs == [] then None
    else if rs[|rs| - 1].toolCallID == id && rs[|rs| - 1].name != "" then Some(rs[|rs| - 1].name)
    else LastName(rs[..|rs| - 1], id)
  }

  function FilledName(distinct: bool, c: ToolCall, k: nat, rs: seq<Message>): string {
    if c.name != "" then c.name
    else if distinct then (match LastName(rs, c.id) case Some(n) => n case None => "")
    else if k < |rs| then rs[k].name
    else ""
  }

  function Backfill(calls: seq<ToolCall>, rs: seq<Message>): (r: seq<ToolCall>)
    ensures |r| == |calls|
  {
    seq(|calls|, k requires 0 <= k < |calls| => calls[k].(name := FilledName(Distinct(calls), calls[k], k, rs)))
  }

  function Paired(distinct: bool, c: ToolCall, k: nat, rs: seq<Message>): Message {
    if distinct then
      match LastWith(rs, c.id)
      case Some(r) => r.(name := c.name)
      case None => Placeholder(c)
    else if k < |rs| then rs[k].(toolCallID := c.id, name := c.name)
    else Placeholder(c)
  }

  function Pair(calls: seq<ToolCall>, rs: seq<Message>): (r: seq<Message>)
    ensures |r| == |calls|
  {
    seq(|calls|, k requires 0 <= k < |calls| => Paired(Distinct(calls), calls[k], k, rs))
  }

  predicate Sound(arguments: string) {
    arguments == "" || Valid(arguments)
  }

  function FixArgs(c: ToolCall): ToolCall {
    if Sound(c.arguments) then c else c.(arguments := Repaired(c.arguments))
  }

  function FixCalls(calls: seq<ToolCall>): (r: seq<ToolCall>)
    ensures |r| == |calls|
  {
    seq(|calls|, k requires 0 <= k < |calls| => FixArgs(calls[k]))
  }

  // ---------------------------------------------------------------- specification of the pass

  /** How many tool messages lead the list. */
  function ToolCount(ms: seq<Message>): (n: nat)
    ensures n <= |ms| && (forall i :: 0 <= i < n ==> IsTool(ms[i])) && (n < |ms| ==> !IsTool(ms[n]))
  {
    if ms == [] || !IsTool(ms[0]) then 0 else 1 + ToolCount(ms[1..])
  }

  lemma {:induction false} ToolCountIs(ms: seq<Message>, n: nat)
    requires n <= |ms| && (forall i :: 0 <= i < n ==> IsTool(ms[i])) && (n < |ms| ==> !IsTool(ms[n]))
    ensures ToolCount(ms) == n
  {
  }

  function MendTurn(m: Message, rs: seq<Message>): seq<Message> {
    var calls := Backfill(m.toolCalls, rs);
    [m.(toolCalls := FixCalls(calls))] + Pair(calls, rs)
  }

  /** The repairing loop. */
  function Slow(ms: seq<Message>): seq<Message>
    decreases |ms|
  {
    if ms == [] then []
    else if IsTurn(ms[0]) then
      var n := ToolCount(ms[1..]);
      MendTurn(ms[0], ms[1..][..n]) + Slow(ms[1..][n..])
    else if IsTool(ms[0]) then Slow(ms[1..])
    else [ms[0]] + Slow(ms[1..])
  }

  predicate TurnOk(calls: seq<ToolCall>, rs: seq<Message>) {
    && |calls| == |rs|
    && (forall k :: 0 <= k < |calls| ==> calls[k].name != "" && calls[k].id != "")
    && (forall k :: 0 <= k < |calls| ==> rs[k].toolCallID == calls[k].id && rs[k].name == calls[k].name)
  }

  predicate ArgsOk(calls: seq<ToolCall>) {
    forall k :: 0 <= k < |calls| ==> Sound(calls[k].arguments)
  }

  /** The test of the fast path. */
  predicate Fast(ms: seq<Message>)
    decreases |ms|
  {
    if ms == [] then true
    else if IsTurn(ms[0]) then
      var n := ToolCount(ms[1..]);
      TurnOk(ms[0].toolCalls, ms[1..][..n]) && ArgsOk(ms[0].toolCalls) && Fast(ms[1..][n..])
    else !IsTool(ms[0]) && Fast(ms[1..])
  }

  function Normalized(ms: seq<Message>): seq<Message> {
    if Fast(ms) then ms else Slow(ms)
  }

  // ---------------------------------------------------------------- the operations

  method IdDistinct(calls: seq<ToolCall>) returns (b: bool)
    ensures b == Distinct(calls)
  {
    var seen: set<string> := {};
    for i := 0 to |calls|
      invariant Distinct(calls[..i])
      invariant forall id :: id in seen <==> exists k :: 0 <= k < i && calls[k].id == id
    {
      var tc := calls[i];
      if tc.id == "" {
        return false;
      }
      if tc.id in seen {
        return false;
      }
      seen := seen + {tc.id};
    }
    assert calls[..|calls|] == calls;
    return true;
  }

  lemma {:induction false} LastWithSnoc(rs: seq<Message>, i: nat, id: string)
    requires i < |rs|
    ensures LastWith(rs[..i + 1], id) == if rs[i].toolCallID == id then Some(rs[i]) else LastWith(rs[..i], id)
  {
    assert rs[..i + 1][..i] == rs[..i];
  }

  lemma {:induction false} LastNameSnoc(rs: seq<Message>, i: nat, id: string)
    requires i < |rs|
    ensures LastName(rs[..i + 1], id)
         == if rs[i].toolCallID == id && rs[i].name != "" then Some(rs[i].name) else LastName(rs[..i], id)
  {
    assert rs[..i + 1][..i] == rs[..i];
  }

  function Look<T>(m: map<string, T>, id: string): Option<T> {
    if id in m then Some(m[id]) else None
  }

  method ResultsById(avail: seq<Message>) returns (byId: map<string, Message>)
    ensures forall id :: Look(byId, id) == LastWith(avail, id)
  {
    byId := map[];
    for i := 0 to |avail|
      invariant forall id :: Look(byId, id) == LastWith(avail[..i], id)
    {
      ghost var was := byId;
      byId := byId[avail[i].toolCallID := avail[i]];
      forall id ensures Look(byId, id) == LastWith(avail[..i + 1], id) {
        LastWithSnoc(avail, i, id);
        assert Look(was, id) == LastWith(avail[..i], id);
      }
    }
    assert avail[..|avail|] == avail;
  }

  method PairToolResults(calls: seq<ToolCall>, avail: seq<Message>) returns (out: seq<Message>)
    ensures out == Pair(calls, avail)
  {
    out := [];
    var distinct := IdDistinct(calls);
    if distinct {
      var byId := ResultsById(avail);
      for k := 0 to |calls|
        invariant out == Pair(calls, avail)[..k]
      {
        var tc := calls[k];
        assert Look(byId, tc.id) == LastWith(avail, tc.id);
        if tc.id in byId {
          out := out + [byId[tc.id].(name := tc.name)];
        } else {
          out := out + [Message(TOOL, INTERRUPTED, "", [], tc.id, tc.name, [])];
        }
      }
    } else {
      for k := 0 to |calls|
        invariant out == Pair(calls, avail)[..k]
      {
        var tc := calls[k];
        if k < |avail| {
          out := out + [avail[k].(toolCallID := tc.id, name := tc.name)];
        } else {
          out := out + [Message(TOOL, INTERRUPTED, "", [], tc.id, tc.name, [])];
        }
      }
    }
  }

  method NamesById(results: seq<Message>) returns (byId: map<string, string>)
    ensures forall id :: Look(byId, id) == LastName(results, id)
  {
    byId := map[];
    for i := 0 to |results|
      invariant forall id :: Look(byId, id) == LastName(results[..i], id)
    {
      ghost var was := byId;
      if results[i].name != "" {
        byId := byId[results[i].toolCallID := results[i].name];
      }
      forall id ensures Look(byId, id) == LastName(results[..i + 1], id) {
        LastNameSnoc(results, i, id);
        assert Look(was, id) == LastName(results[..i], id);
      }
    }
    assert results[..|results|] == results;
  }

  method BackfillToolCallNames(calls: seq<ToolCall>, results: seq<Message>) returns (out: seq<ToolCall>)
    ensures out == Backfill(calls, results)
  {
    var missing := false;
    for k := 0 to |calls|
      invariant !missing ==> forall i :: 0 <= i < k ==> calls[i].name != ""
    {
      if calls[k].name == "" {
        missing := true;
        break;
      }
    }
    if !missing {
      return calls;
    }
    var distinct := IdDistinct(calls);
    if distinct {
      out := FillById(calls, results);
    } else {
      out := FillByIndex(calls, results);
    }
  }

  method FillById(calls: seq<ToolCall>, results: seq<Message>) returns (out: seq<ToolCall>)
    requires Distinct(calls)
    ensures out == Backfill(calls, results)
  {
    out := calls;
    var byId := NamesById(results);
    for k := 0 to |calls|
      invariant |out| == |calls|
      invariant forall i :: 0 <= i < k ==> out[i] == Backfill(calls, results)[i]
      invariant forall i :: k <= i < |calls| ==> out[i] == calls[i]
    {
      assert Look(byId, calls[k].id) == LastName(results, calls[k].id);
      if out[k].name == "" {
        if out[k].id in byId {
          out := out[k := out[k].(name := byId[out[k].id])];
        }
      }
    }
  }

  method FillByIndex(calls: seq<ToolCall>, results: seq<Message>) returns (out: seq<ToolCall>)
    requires !Distinct(calls)
    ensures out == Backfill(calls, results)
  {
    out := calls;
    for k := 0 to |calls|
      invariant |out| == |calls|
      invariant forall i :: 0 <= i < k ==> out[i] == Backfill(calls, results)[i]
      invariant forall i :: k <= i < |calls| ==> out[i] == calls[i]
    {
      if out[k].name == "" && k < |results| {
        out := out[k := out[k].(name := results[k].name)];
      }
    }
  }

  method NeedsArgRepair(calls: seq<ToolCall>) returns (b: bool)
    ensures b == !ArgsOk(calls)
  {
    for k := 0 to |calls|
      invariant forall i :: 0 <= i < k ==> Sound(calls[i].arguments)
    {
      if calls[k].arguments != "" && !Valid(calls[k].arguments) {
        return true;
      }
    }
    return false;
  }

  lemma {:induction false} FixCallsId(calls: seq<ToolCall>)
    requires ArgsOk(calls)
    ensures FixCalls(calls) == calls
  {
  }

  method RepairArgs(c: ToolCall) returns (r: ToolCall)
    ensures r == FixArgs(c)
  {
    if c.arguments == "" || Valid(c.arguments) {
      return c;
    }
    var closed := CloseTruncatedJson(c.arguments);
    r := c.(arguments := closed);
  }

  method RepairToolCallArgs(m: Message) returns (r: Message)
    ensures r == m.(toolCalls := FixCalls(m.toolCalls))
  {
    var broken := NeedsArgRepair(m.toolCalls);
    if !broken {
      FixCallsId(m.toolCalls);
      return m;
    }
    var calls := m.toolCalls;
    for i := 0 to |calls|
      invariant |calls| == |m.toolCalls|
      invariant forall k :: 0 <= k < i ==> calls[k] == FixCalls(m.toolCalls)[k]
      invariant forall k :: i <= k < |calls| ==> calls[k] == m.toolCalls[k]
    {
      var fixed := RepairArgs(calls[i]);
      calls := calls[i := fixed];
    }
    r := m.(toolCalls := calls);
  }

  method ToolTurnWellFormed(calls: seq<ToolCall>, results: seq<Message>) returns (b: bool)
    ensures b == TurnOk(calls, results)
  {
    if |calls| != |results| {
      return false;
    }
    for k := 0 to |calls|
      invariant forall i :: 0 <= i < k ==> calls[i].name != "" && calls[i].id != ""
    {
      if calls[k].name == "" || calls[k].id == "" {
        return false;
      }
    }
    for k := 0 to |calls|
      invariant forall i :: 0 <= i < k ==> results[i].toolCallID == calls[i].id && results[i].name == calls[i].name
    {
      if results[k].toolCallID != calls[k].id {
        return false;
      }
      if results[k].name != calls[k].name {
        return false;
      }
    }
    return true;
  }

  /** The end of the run of tool messages that starts at `i`. */
  method ResultsEnd(msgs: seq<Message>, i: nat) returns (j: nat)
    requires i <= |msgs|
    ensures i <= j <= |msgs| && ToolCount(msgs[i..]) == j - i
    ensures msgs[i..j] == msgs[i..][..j - i] && msgs[j..] == msgs[i..][j - i..]
  {
    j := i;
    while j < |msgs| && msgs[j].role == TOOL
      invariant i <= j <= |msgs|
      invariant forall k :: 0 <= k < j - i ==> IsTool(msgs[i..][k])
    {
      j := j + 1;
    }
    ToolCountIs(msgs[i..], j - i);
  }

  method TryFastPath(msgs: seq<Message>) returns (ok: bool)
    ensures ok == Fast(msgs)
  {
    var i := 0;
    while i < |msgs|
      invariant 0 <= i <= |msgs|
      invariant Fast(msgs[i..]) == Fast(msgs)
    {
      var m := msgs[i];
      assert msgs[i..][0] == m && msgs[i..][1..] == msgs[i + 1..];
      if m.role == ASSISTANT && |m.toolCalls| > 0 {
        var j := ResultsEnd(msgs, i + 1);
        var wellFormed := ToolTurnWellFormed(m.toolCalls, msgs[i + 1..j]);
        var needsRepair := NeedsArgRepair(m.toolCalls);
        if !wellFormed || needsRepair {
          return false;
        }
        i := j;
      } else if m.role == TOOL {
        return false;
      } else {
        i := i + 1;
      }
    }
    return true;
  }

  /** One assistant turn and its results, repaired. */
  method RepairTurn(m: Message, results: seq<Message>) returns (out: seq<Message>)
    ensures out == MendTurn(m, results)
  {
    var calls := BackfillToolCallNames(m.toolCalls, results);
    var fixed := RepairToolCallArgs(m.(toolCalls := calls));
    var paired := PairToolResults(calls, results);
    out := [fixed] + paired;
  }

  lemma Glue(a: seq<Message>, b: seq<Message>, c: seq<Message>)
    ensures a + (b + c) == a + b + c
  {
  }

  /** The repairing loop at a turn, whose results end at `j`. */
  lemma {:induction false} SlowTurn(msgs: seq<Message>, i: nat, j: nat)
    requires i < j <= |msgs| && j - (i + 1) == ToolCount(msgs[i + 1..]) && IsTurn(msgs[i])
    ensures Slow(msgs[i..]) == MendTurn(msgs[i], msgs[i + 1..j]) + Slow(msgs[j..])
  {
    assert msgs[i..][0] == msgs[i] && msgs[i..][1..] == msgs[i + 1..];
    assert msgs[i + 1..][..j - (i + 1)] == msgs[i + 1..j] && msgs[i + 1..][j - (i + 1)..] == msgs[j..];
  }

  lemma {:induction false} SlowOther(msgs: seq<Message>, i: nat)
    requires i < |msgs| && !IsTurn(msgs[i])
    ensures Slow(msgs[i..]) == (if IsTool(msgs[i]) then [] else [msgs[i]]) + Slow(msgs[i + 1..])
  {
    assert msgs[i..][0] == msgs[i] && msgs[i..][1..] == msgs[i + 1..];
  }

  method NormalizeMessages(msgs: seq<Message>) returns (out: seq<Message>)
    ensures out == Normalized(msgs)
  {
    var ok := TryFastPath(msgs);
    if ok {
      return msgs;
    }
    out := Repair(msgs);
  }

  /** The loop of `NormalizeMessages` when the fast path does not apply. */
  method Repair(msgs: seq<Message>) returns (out: seq<Message>)
    ensures out == Slow(msgs)
  {
    out := [];
    var i := 0;
    while i < |msgs|
      invariant 0 <= i <= |msgs|
      invariant out + Slow(msgs[i..]) == Slow(msgs)
    {
      var m := msgs[i];
      if m.role == ASSISTANT && |m.toolCalls| > 0 {
        var j := ResultsEnd(msgs, i + 1);
        SlowTurn(msgs, i, j);
        var turn := RepairTurn(m, msgs[i + 1..j]);
        Glue(out, turn, Slow(msgs[j..]));
        out := out + turn;
        i := j;
      } else if m.role == TOOL {
        SlowOther(msgs, i);
        i := i + 1;
      } else {
        SlowOther(msgs, i);
        Glue(out, [m], Slow(msgs[i + 1..]));
        out := out + [m];
        i := i + 1;
      }
    }
  }

  // ---------------------------------------------------------------- what the result looks like

  /** The `k`-th result answers the `k`-th call. */
  predicate Answers(calls: seq<ToolCall>, rs: seq<Message>) {
    && |rs| == |calls|
    && forall k :: 0 <= k < |calls| ==>
         IsTool(rs[k]) && rs[k].toolCallID == calls[k].id && rs[k].name == calls[k].name
  }

  /**
   Every assistant turn with n calls has sound arguments and is followed by exactly n tool
   messages answering them in order, and there is no other tool message.
   */
  predicate Normal(ms: seq<Message>)
    decreases |ms|
  {
    if ms == [] then true
    else if IsTurn(ms[0]) then
      var calls := ms[0].toolCalls;
      |calls| < |ms| && ArgsOk(calls) && Answers(calls, ms[1..][..|calls|]) && Normal(ms[1..][|calls|..])
    else !IsTool(ms[0]) && Normal(ms[1..])
  }

  lemma {:induction false} LastWithMember(rs: seq<Message>, id: string)
    ensures LastWith(rs, id).Some? ==> exists j :: 0 <= j < |rs| && rs[j] == LastWith(rs, id).value && rs[j].toolCallID == id
                                         && forall i :: j < i < |rs| ==> rs[i].toolCallID != id
    ensures LastWith(rs, id).None? ==> forall i :: 0 <= i < |rs| ==> rs[i].toolCallID != id
    decreases rs
  {
    if rs != [] && rs[|rs| - 1].toolCallID != id {
      var p := rs[..|rs| - 1];
      LastWithMember(p, id);
      if LastWith(p, id).Some? {
        var j :| 0 <= j < |p| && p[j] == LastWith(p, id).value && p[j].toolCallID == id
                 && forall i :: j < i < |p| ==> p[i].toolCallID != id;
        assert rs[j] == p[j];
        forall i | j < i < |rs| ensures rs[i].toolCallID != id {
          assert i < |p| ==> rs[i] == p[i];
        }
      }
    }
  }

  lemma {:induction false} LastNameMember(rs: seq<Message>, id: string)
    ensures LastName(rs, id).Some? ==> exists j :: 0 <= j < |rs| && rs[j].name == LastName(rs, id).value && rs[j].toolCallID == id
                                         && rs[j].name != "" && forall i :: j < i < |rs| ==> rs[i].toolCallID != id || rs[i].name == ""
    ensures LastName(rs, id).None? ==> forall i :: 0 <= i < |rs| ==> rs[i].toolCallID != id || rs[i].name == ""
    decreases rs
  {
    if rs != [] && !(rs[|rs| - 1].toolCallID == id && rs[|rs| - 1].name != "") {
      var p := rs[..|rs| - 1];
      LastNameMember(p, id);
      if LastName(p, id).Some? {
        var j :| 0 <= j < |p| && p[j].name == LastName(p, id).value && p[j].toolCallID == id
                 && p[j].name != "" && forall i :: j < i < |p| ==> p[i].toolCallID != id || p[i].name == "";
        assert rs[j] == p[j];
        forall i | j < i < |rs| ensures rs[i].toolCallID != id || rs[i].name == "" {
          assert i < |p| ==> rs[i] == p[i];
        }
      }
    }
  }

  lemma {:induction false} PairAnswers(calls: seq<ToolCall>, rs: seq<Message>)
    requires forall i :: 0 <= i < |rs| ==> IsTool(rs[i])
    ensures Answers(calls, Pair(calls, rs))
  {
    forall k | 0 <= k < |calls|
      ensures var r := Pair(calls, rs)[k]; IsTool(r) && r.toolCallID == calls[k].id && r.name == calls[k].name
    {
      LastWithMember(rs, calls[k].id);
    }
  }

  lemma {:induction false} FixCallsSound(calls: seq<ToolCall>)
    ensures ArgsOk(FixCalls(calls))
  {
    forall k | 0 <= k < |calls| ensures Sound(FixCalls(calls)[k].arguments) {
      RepairedValid(calls[k].arguments);
    }
  }

  lemma {:induction false} AnswersFixed(calls: seq<ToolCall>, rs: seq<Message>)
    requires Answers(calls, rs)
    ensures Answers(FixCalls(calls), rs)
  {
  }

  /** The repairing loop always produces a normal conversation. */
  lemma {:induction false} SlowNormal(ms: seq<Message>)
    ensures Normal(Slow(ms))
    decreases |ms|
  {
    if ms == [] {
    } else if IsTurn(ms[0]) {
      var n := ToolCount(ms[1..]);
      var rs, rest := ms[1..][..n], Slow(ms[1..][n..]);
      var calls := Backfill(ms[0].toolCalls, rs);
      SlowNormal(ms[1..][n..]);
      PairAnswers(calls, rs);
      FixCallsSound(calls);
      AnswersFixed(calls, Pair(calls, rs));
      TurnNormal(ms[0].(toolCalls := FixCalls(calls)), Pair(calls, rs), rest);
    } else if IsTool(ms[0]) {
      SlowNormal(ms[1..]);
    } else {
      SlowNormal(ms[1..]);
      assert Slow(ms)[1..] == Slow(ms[1..]);
    }
  }

  lemma {:induction false} TurnNormal(m: Message, rs: seq<Message>, rest: seq<Message>)
    requires IsTurn(m) && ArgsOk(m.toolCalls) && Answers(m.toolCalls, rs) && Normal(rest)
    ensures Normal([m] + rs + rest)
  {
    var all := [m] + rs + rest;
    assert all[1..][..|rs|] == rs && all[1..][|rs|..] == rest;
  }

  // ---------------------------------------------------------------- normal conversations are fixed

  lemma {:induction false} BackfillFixed(calls: seq<ToolCall>, rs: seq<Message>)
    requires Answers(calls, rs)
    ensures Backfill(calls, rs) == calls
  {
    forall k | 0 <= k < |calls| ensures FilledName(Distinct(calls), calls[k], k, rs) == calls[k].name {
      if calls[k].name == "" && Distinct(calls) {
        forall i | 0 <= i < |rs| ensures rs[i].toolCallID != calls[k].id || rs[i].name == "" {
          assert rs[i].toolCallID == calls[i].id && rs[i].name == calls[i].name;
        }
        LastNameMember(rs, calls[k].id);
      }
    }
  }

  lemma {:induction false} PairFixed(calls: seq<ToolCall>, rs: seq<Message>)
    requires Answers(calls, rs)
    ensures Pair(calls, rs) == rs
  {
    forall k | 0 <= k < |calls| ensures Paired(Distinct(calls), calls[k], k, rs) == rs[k] {
      if Distinct(calls) {
        LastWithMember(rs, calls[k].id);
        assert rs[k].toolCallID == calls[k].id;
        var j :| 0 <= j < |rs| && rs[j] == LastWith(rs, calls[k].id).value && rs[j].toolCallID == calls[k].id;
        assert calls[j].id == calls[k].id;
      }
    }
  }

  lemma {:induction false} TurnFixed(m: Message, rs: seq<Message>, rest: seq<Message>)
    requires IsTurn(m) && ArgsOk(m.toolCalls) && Answers(m.toolCalls, rs) && (rest != [] ==> !IsTool(rest[0]))
    ensures Slow([m] + rs + rest) == [m] + rs + Slow(rest)
  {
    var ms := [m] + rs + rest;
    assert ms[1..] == rs + rest;
    ToolCountIs(rs + rest, |rs|);
    assert (rs + rest)[..|rs|] == rs && (rs + rest)[|rs|..] == rest;
    BackfillFixed(m.toolCalls, rs);
    PairFixed(m.toolCalls, rs);
    FixCallsId(m.toolCalls);
  }

  /** A normal conversation goes through the repairing loop unchanged. */
  lemma {:induction false} SlowFixed(ms: seq<Message>)
    requires Normal(ms)
    ensures Slow(ms) == ms
    decreases |ms|
  {
    if ms == [] {
    } else if IsTurn(ms[0]) {
      var n := |ms[0].toolCalls|;
      var rs, rest := ms[1..][..n], ms[1..][n..];
      assert ms == [ms[0]] + rs + rest;
      TurnFixed(ms[0], rs, rest);
      SlowFixed(rest);
    } else {
      SlowFixed(ms[1..]);
    }
  }

  lemma {:induction false} FastNormal(ms: seq<Message>)
    requires Fast(ms)
    ensures Normal(ms)
    decreases |ms|
  {
    if ms == [] {
    } else if IsTurn(ms[0]) {
      var n := ToolCount(ms[1..]);
      FastNormal(ms[1..][n..]);
      assert forall k :: 0 <= k < n ==> ms[1..][..n][k] == ms[1..][k];
    } else {
      FastNormal(ms[1..]);
    }
  }

  /** The fast path refines the slow one: it answers only where the loop would change nothing. */
  lemma {:induction false} FastRefinesSlow(ms: seq<Message>)
    ensures Normalized(ms) == Slow(ms)
  {
    if Fast(ms) {
      FastNormal(ms);
      SlowFixed(ms);
    }
  }

  /** The result is normal, normal conversations are exactly the fixed ones, and doing it twice is doing it once. */
  lemma {:induction false} NormalizeTheorem(ms: seq<Message>)
    ensures Normal(Normalized(ms))
    ensures Normalized(ms) == ms <==> Normal(ms)
    ensures Normalized(Normalized(ms)) == Normalized(ms)
  {
    FastRefinesSlow(ms);
    SlowNormal(ms);
    if Normal(ms) {
      SlowFixed(ms);
    }
    FastRefinesSlow(Normalized(ms));
    SlowFixed(Normalized(ms));
  }

  // ---------------------------------------------------------------- what is conserved

  /** A conversation as its messages and turns, stray tool messages left out. */
  datatype Block = Single(m: Message) | Turn(m: Message, results: seq<Message>)

  function Blocks(ms: seq<Message>): seq<Block>
    decreases |ms|
  {
    if ms == [] then []
    else if IsTurn(ms[0]) then
      var n := ToolCount(ms[1..]);
      [Turn(ms[0], ms[1..][..n])] + Blocks(ms[1..][n..])
    else if IsTool(ms[0]) then Blocks(ms[1..])
    else [Single(ms[0])] + Blocks(ms[1..])
  }

  /** `rs[j]` is the last result with this ID. */
  ghost predicate IsLast(rs: seq<Message>, id: string, j: int) {
    0 <= j < |rs| && rs[j].toolCallID == id && forall i :: j < i < |rs| ==> rs[i].toolCallID != id
  }

  /** `rs[j]` is the last named result with this ID. */
  ghost predicate IsLastNamed(rs: seq<Message>, id: string, j: int) {
    && 0 <= j < |rs| && rs[j].toolCallID == id && rs[j].name != ""
    && forall i :: j < i < |rs| ==> rs[i].toolCallID != id || rs[i].name == ""
  }

  /** IDs that cannot tell the calls apart: one is empty, or two are the same. */
  ghost predicate Ambiguous(calls: seq<ToolCall>) {
    || (exists k :: 0 <= k < |calls| && calls[k].id == "")
    || (exists j, k :: 0 <= j < k < |calls| && calls[j].id == calls[k].id)
  }

  /** How call `k` may change: only an empty name and unsound arguments are rewritten. */
  ghost predicate CallKept(calls: seq<ToolCall>, rs: seq<Message>, k: nat, c: ToolCall)
    requires k < |calls|
  {
    var b := calls[k];
    && c.id == b.id && c.kind == b.kind
    && (b.name != "" ==> c.name == b.name)
    && (b.name == "" && !Ambiguous(calls) ==>
          (c.name == "" && !(exists j :: IsLastNamed(rs, b.id, j)))
          || (exists j :: IsLastNamed(rs, b.id, j) && c.name == rs[j].name))
    && (b.name == "" && Ambiguous(calls) ==> c.name == if k < |rs| then rs[k].name else "")
    && (if b.arguments == "" || IsJson(b.arguments) then c.arguments == b.arguments else Mended(b.arguments, c.arguments))
  }

  /** A message that stands in for a result that never came. */
  predicate Stands(c: ToolCall, r: Message) {
    r == Message("tool", "[no result: the previous turn was interrupted before this tool call completed]", "", [], c.id, c.name, [])
  }

  /** Where result `k` comes from: a result of the same turn, or the placeholder. */
  ghost predicate ResultKept(calls: seq<ToolCall>, rs: seq<Message>, k: nat, c: ToolCall, r: Message)
    requires k < |calls|
  {
    if !Ambiguous(calls) then
      || (Stands(c, r) && forall i :: 0 <= i < |rs| ==> rs[i].toolCallID != c.id)
      || (exists j :: IsLast(rs, c.id, j) && r == rs[j].(name := c.name))
    else
      if k < |rs| then r == rs[k].(toolCallID := c.id, name := c.name) else Stands(c, r)
  }

  ghost predicate Kept(b: Block, d: Block) {
    match b
    case Single(m) => d == b
    case Turn(m, rs) =>
      && d.Turn? && d.m == m.(toolCalls := d.m.toolCalls)
      && |d.m.toolCalls| == |d.results| == |m.toolCalls|
      && forall k :: 0 <= k < |m.toolCalls| ==>
           CallKept(m.toolCalls, rs, k, d.m.toolCalls[k]) && ResultKept(m.toolCalls, rs, k, d.m.toolCalls[k], d.results[k])
  }

  lemma {:induction false} DistinctBackfilled(calls: seq<ToolCall>, rs: seq<Message>)
    ensures Distinct(Backfill(calls, rs)) == Distinct(calls)
  {
    var b := Backfill(calls, rs);
    assert forall k :: 0 <= k < |calls| ==> b[k].id == calls[k].id;
  }

  lemma {:induction false} CallKeptBy(calls: seq<ToolCall>, rs: seq<Message>, k: nat)
    requires k < |calls|
    ensures CallKept(calls, rs, k, FixCalls(Backfill(calls, rs))[k])
  {
    var id := calls[k].id;
    RepairMends(calls[k].arguments);
    ValidIffJson(calls[k].arguments);
    LastNameMember(rs, id);
    if LastName(rs, id).Some? {
      var j :| 0 <= j < |rs| && rs[j].name == LastName(rs, id).value && rs[j].toolCallID == id
               && rs[j].name != "" && forall i :: j < i < |rs| ==> rs[i].toolCallID != id || rs[i].name == "";
      assert IsLastNamed(rs, id, j);
    }
  }

  lemma {:induction false} ResultKeptBy(calls: seq<ToolCall>, rs: seq<Message>, k: nat)
    requires k < |calls|
    ensures var b := Backfill(calls, rs); ResultKept(calls, rs, k, FixCalls(b)[k], Pair(b, rs)[k])
  {
    DistinctBackfilled(calls, rs);
    var id := calls[k].id;
    LastWithMember(rs, id);
    if LastWith(rs, id).Some? {
      var j :| 0 <= j < |rs| && rs[j] == LastWith(rs, id).value && rs[j].toolCallID == id
               && forall i :: j < i < |rs| ==> rs[i].toolCallID != id;
      assert IsLast(rs, id, j);
    }
  }

  lemma {:induction false} TurnKept(m: Message, rs: seq<Message>)
    ensures var b := Backfill(m.toolCalls, rs);
            Kept(Turn(m, rs), Turn(m.(toolCalls := FixCalls(b)), Pair(b, rs)))
  {
    forall k | 0 <= k < |m.toolCalls|
      ensures var b := Backfill(m.toolCalls, rs);
              CallKept(m.toolCalls, rs, k, FixCalls(b)[k]) && ResultKept(m.toolCalls, rs, k, FixCalls(b)[k], Pair(b, rs)[k])
    {
      CallKeptBy(m.toolCalls, rs, k);
      ResultKeptBy(m.toolCalls, rs, k);
    }
  }

  lemma {:induction false} BlocksTurn(m: Message, rs: seq<Message>, rest: seq<Message>)
    requires IsTurn(m) && (forall i :: 0 <= i < |rs| ==> IsTool(rs[i])) && (rest == [] || !IsTool(rest[0]))
    ensures Blocks([m] + rs + rest) == [Turn(m, rs)] + Blocks(rest)
  {
    var all := [m] + rs + rest;
    assert all[1..] == rs + rest;
    ToolCountIs(all[1..], |rs|);
    assert all[1..][..|rs|] == rs && all[1..][|rs|..] == rest;
  }

  lemma {:induction false} MendedBlocks(m: Message, rs: seq<Message>, rest: seq<Message>)
    requires IsTurn(m) && forall i :: 0 <= i < |rs| ==> IsTool(rs[i])
    ensures var b := Backfill(m.toolCalls, rs);
            Blocks(MendTurn(m, rs) + Slow(rest)) == [Turn(m.(toolCalls := FixCalls(b)), Pair(b, rs))] + Blocks(Slow(rest))
  {
    var b := Backfill(m.toolCalls, rs);
    PairAnswers(b, rs);
    SlowNormal(rest);
    BlocksTurn(m.(toolCalls := FixCalls(b)), Pair(b, rs), Slow(rest));
  }

  ghost predicate AllKept(bs: seq<Block>, ds: seq<Block>) {
    |bs| == |ds| && forall i :: 0 <= i < |bs| ==> Kept(bs[i], ds[i])
  }

  lemma {:induction false} KeptCons(b: Block, d: Block, bs: seq<Block>, ds: seq<Block>)
    requires Kept(b, d) && AllKept(bs, ds)
    ensures AllKept([b] + bs, [d] + ds)
  {
  }

  lemma {:induction false} SingleBlocks(m: Message, rest: seq<Message>)
    requires !IsTurn(m) && !IsTool(m)
    ensures Blocks([m] + rest) == [Single(m)] + Blocks(rest)
  {
    assert ([m] + rest)[1..] == rest;
  }

  lemma {:induction false} TurnConserved(m: Message, rs: seq<Message>, rest: seq<Message>)
    requires IsTurn(m) && (forall i :: 0 <= i < |rs| ==> IsTool(rs[i])) && AllKept(Blocks(rest), Blocks(Slow(rest)))
    ensures AllKept([Turn(m, rs)] + Blocks(rest), Blocks(MendTurn(m, rs) + Slow(rest)))
  {
    var b := Backfill(m.toolCalls, rs);
    MendedBlocks(m, rs, rest);
    TurnKept(m, rs);
    KeptCons(Turn(m, rs), Turn(m.(toolCalls := FixCalls(b)), Pair(b, rs)), Blocks(rest), Blocks(Slow(rest)));
  }

  /**
   Normalisation conserves the conversation: block by block, in order, messages outside tool
   turns survive as they are, and each turn keeps its message, its calls and its results up to
   the rewritings that `Kept` allows.  Only tool messages are dropped: those outside turns, and
   results of a turn beyond its calls, without a call, or replaced by a later one with their ID.
   */
  lemma {:induction false} Conserved(ms: seq<Message>)
    ensures AllKept(Blocks(ms), Blocks(Slow(ms)))
    decreases |ms|
  {
    if ms == [] {
    } else if IsTurn(ms[0]) {
      var n := ToolCount(ms[1..]);
      Conserved(ms[1..][n..]);
      TurnConserved(ms[0], ms[1..][..n], ms[1..][n..]);
    } else if IsTool(ms[0]) {
      Conserved(ms[1..]);
    } else {
      Conserved(ms[1..]);
      SingleBlocks(ms[0], Slow(ms[1..]));
      KeptCons(Single(ms[0]), Single(ms[0]), Blocks(ms[1..]), Blocks(Slow(ms[1..])));
    }
  }
}
