/**
 The tool registry's availability check, cached for a time and forgiving failures for another.
 */
module Registry {
  import opened Options

  datatype Entry = Entry(available: bool, expires: int)

  /** `ttl` and `grace` are `checkFnTTL` and `checkFnFailureGrace`; a tool is known by a number. */
  datatype Reg = Reg(ttl: int, grace: int, tools: map<string, nat>, cache: map<string, Entry>, lastSuccess: map<string, int>)

  const TTL := 30_000_000_000
  const GRACE := 60_000_000_000

  function New(ttl: int, grace: int): Reg {
    Reg(ttl, grace, map[], map[], map[])
  }

  // ---------------------------------------------------------------- specification

  /** A check reads the clock at `t0`; if it has to ask the tool, that says `probe` and it is then `t1`. */
  datatype Op =
    | Register(name: string, tool: nat)
    | Unregister(name: string)
    | Check(name: string, t0: int, probe: bool, t1: int)
    | Invalidate(name: string)
    | Clear

  /** The cache answers. */
  predicate Hit(r: Reg, name: string, t0: int) {
    name in r.cache && t0 < r.cache[name].expires
  }

  /** The tool is asked. */
  predicate Asks(r: Reg, op: Op) {
    op.Check? && !Hit(r, op.name, op.t0) && op.name in r.tools
  }

  function Answer(r: Reg, name: string, t0: int, probe: bool, t1: int): bool {
    if Hit(r, name, t0) then r.cache[name].available
    else if name !in r.tools then false
    else probe || (name in r.lastSuccess && t1 - r.lastSuccess[name] < r.grace)
  }

  /** When the answer is given. */
  function AnsweredAt(r: Reg, name: string, t0: int, t1: int): int {
    if Hit(r, name, t0) || name !in r.tools then t0 else t1
  }

  function Checked(r: Reg, name: string, t0: int, probe: bool, t1: int): Reg {
    if Hit(r, name, t0) || name !in r.tools then r
    else if probe then
      r.(cache := r.cache[name := Entry(true, t1 + r.ttl)], lastSuccess := r.lastSuccess[name := t1])
    else if Answer(r, name, t0, probe, t1) then r
    else r.(cache := r.cache[name := Entry(false, t1 + r.ttl)])
  }

  function Applied(r: Reg, op: Op): Reg {
    match op
    case Register(name, tool) => r.(tools := r.tools[name := tool])
    case Unregister(name) => r.(tools := r.tools - {name}, cache := r.cache - {name}, lastSuccess := r.lastSuccess - {name})
    case Check(name, t0, probe, t1) => Checked(r, name, t0, probe, t1)
    case Invalidate(name) => r.(cache := r.cache - {name})
    case Clear => r.(cache := map[], lastSuccess := map[])
  }

  function After(r: Reg, ops: seq<Op>): Reg {
    if ops == [] then r else Applied(After(r, ops[..|ops| - 1]), ops[|ops| - 1])
  }

  // ---------------------------------------------------------------- the object

  class ToolRegistry {
    const ttl: int
    const grace: int
    var tools: map<string, nat>
    var checkCache: map<string, Entry>
    var lastSuccessTime: map<string, int>

    function Now(): Reg
      reads this
    {
      Reg(ttl, grace, tools, checkCache, lastSuccessTime)
    }

    constructor ()
      ensures Now() == New(TTL, GRACE)
    {
      ttl, grace := TTL, GRACE;
      tools, checkCache, lastSuccessTime := map[], map[], map[];
    }

    method Register(name: string, tool: nat)
      modifies this
      ensures Now() == Applied(old(Now()), Op.Register(name, tool))
    {
      tools := tools[name := tool];
    }

    method Unregister(name: string)
      modifies this
      ensures Now() == Applied(old(Now()), Op.Unregister(name))
    {
      tools := tools - {name};
      checkCache := checkCache - {name};
      lastSuccessTime := lastSuccessTime - {name};
    }

    method Check(name: string, t0: int, probe: bool, t1: int) returns (ok: bool)
      modifies this
      ensures Now() == Applied(old(Now()), Op.Check(name, t0, probe, t1))
      ensures ok == Answer(old(Now()), name, t0, probe, t1)
    {
      if name in checkCache && t0 < checkCache[name].expires {
        return checkCache[name].available;
      }
      if name !in tools {
        return false;
      }
      if probe {
        checkCache := checkCache[name := Entry(true, t1 + ttl)];
        lastSuccessTime := lastSuccessTime[name := t1];
        return true;
      }
      if name in lastSuccessTime && t1 - lastSuccessTime[name] < grace {
        return true;
      }
      checkCache := checkCache[name := Entry(false, t1 + ttl)];
      return false;
    }

    method InvalidateCache(name: string)
      modifies this
      ensures Now() == Applied(old(Now()), Op.Invalidate(name))
    {
      checkCache := checkCache - {name};
    }

    method ClearCache()
      modifies this
      ensures Now() == Applied(old(Now()), Op.Clear)
    {
      checkCache := map[];
      lastSuccessTime := map[];
    }
  }

  // ---------------------------------------------------------------- whole runs

  /** What happened to a name: its tool was asked, or everything about it was forgotten. */
  datatype Event = Probe(ok: bool, at: int) | Forget

  function EventOf(r: Reg, op: Op, name: string): seq<Event> {
    match op
    case Check(n, _, probe, t1) => if n == name && Asks(r, op) then [Probe(probe, t1)] else []
    case Unregister(n) => if n == name then [Forget] else []
    case Clear => [Forget]
    case _ => []
  }

  function Story(r: Reg, ops: seq<Op>, name: string): seq<Event> {
    if ops == [] then []
    else
      var p := ops[..|ops| - 1];
      Story(r, p, name) + EventOf(After(r, p), ops[|ops| - 1], name)
  }

  /** The last time the tool was available since it was last forgotten. */
  function LastGood(story: seq<Event>): Option<int> {
    if story == [] then None
    else
      match story[|story| - 1]
      case Forget => None
      case Probe(ok, at) => if ok then Some(at) else LastGood(story[..|story| - 1])
  }

  function Clock(ops: seq<Op>): Option<int> {
    if ops == [] then None
    else
      var op := ops[|ops| - 1];
      if op.Check? then Some(op.t1) else Clock(ops[..|ops| - 1])
  }

  /** The clock never runs back. */
  ghost predicate Timely(ops: seq<Op>) {
    ops == [] ||
    var p, op := ops[..|ops| - 1], ops[|ops| - 1];
    Timely(p) && (op.Check? ==> op.t0 <= op.t1 && (Clock(p).Some? ==> Clock(p).value <= op.t0))
  }

  /** What the maps know about `name`, in terms of what happened to it. */
  ghost predicate Knows(r: Reg, story: seq<Event>, clock: Option<int>, name: string) {
    && (name !in r.tools ==> name !in r.cache && name !in r.lastSuccess)
    && (if name in r.lastSuccess then LastGood(story) == Some(r.lastSuccess[name]) && clock.Some? && r.lastSuccess[name] <= clock.value
        else LastGood(story) == None)
    && (name in r.cache ==>
          var e := r.cache[name];
          && clock.Some? && e.expires - r.ttl <= clock.value
          && (if e.available then LastGood(story) == Some(e.expires - r.ttl)
              else Probe(false, e.expires - r.ttl) in story && (name in r.lastSuccess ==> (e.expires - r.ttl) - r.lastSuccess[name] >= r.grace)))
  }

  lemma {:induction false} LastGoodSnoc(story: seq<Event>, e: Event)
    ensures LastGood(story + [e]) == match e { case Forget => None case Probe(ok, at) => if ok then Some(at) else LastGood(story) }
  {
    assert (story + [e])[..|story|] == story;
  }

  lemma {:induction false} KnowsStep(r: Reg, story: seq<Event>, clock: Option<int>, name: string, op: Op)
    requires Knows(r, story, clock, name)
    requires op.Check? ==> op.t0 <= op.t1 && (clock.Some? ==> clock.value <= op.t0)
    ensures Knows(Applied(r, op), story + EventOf(r, op, name), if op.Check? then Some(op.t1) else clock, name)
  {
    if EventOf(r, op, name) == [] {
      assert story + [] == story;
    } else {
      LastGoodSnoc(story, EventOf(r, op, name)[0]);
    }
  }

  lemma {:induction false} RunKnows(ttl: int, grace: int, ops: seq<Op>, name: string)
    requires Timely(ops)
    ensures var r := New(ttl, grace);
            && After(r, ops).ttl == ttl && After(r, ops).grace == grace
            && Knows(After(r, ops), Story(r, ops, name), Clock(ops), name)
    decreases ops
  {
    if ops != [] {
      var r, p := New(ttl, grace), ops[..|ops| - 1];
      RunKnows(ttl, grace, p, name);
      KnowsStep(After(r, p), Story(r, p, name), Clock(p), name, ops[|ops| - 1]);
    }
  }

  /** The tool was available less than the grace period before `t`. */
  predicate Lately(story: seq<Event>, grace: int, t: int) {
    LastGood(story).Some? && t - LastGood(story).value < grace
  }

  /**
   After every run the check answers exactly by the last successful probe that was made: true if
   and only if that was less than the grace period ago, the probe of this very call included.
   */
  lemma {:induction false} CheckExact(ttl: int, grace: int, ops: seq<Op>, name: string, t0: int, probe: bool, t1: int)
    requires 0 <= ttl <= grace && grace > 0
    requires Timely(ops + [Check(name, t0, probe, t1)])
    ensures var r0, all := New(ttl, grace), ops + [Check(name, t0, probe, t1)];
            var r := After(r0, ops);
            Answer(r, name, t0, probe, t1) <==> Lately(Story(r0, all, name), grace, AnsweredAt(r, name, t0, t1))
  {
    var r0, op := New(ttl, grace), Check(name, t0, probe, t1);
    var r, story := After(r0, ops), Story(r0, ops, name);
    assert (ops + [op])[..|ops|] == ops;
    RunKnows(ttl, grace, ops, name);
    if Asks(r, op) {
      LastGoodSnoc(story, Probe(probe, t1));
    } else {
      assert story + [] == story;
    }
  }

  /**
   False for a registered name means a failing probe within the time to live; an unregistered
   name is always false, and neither map knows it.
   */
  lemma {:induction false} CheckFalse(ttl: int, grace: int, ops: seq<Op>, name: string, t0: int, probe: bool, t1: int)
    requires 0 < ttl <= grace
    requires Timely(ops + [Check(name, t0, probe, t1)])
    ensures var r0, all := New(ttl, grace), ops + [Check(name, t0, probe, t1)];
            var r := After(r0, ops);
            if name !in r.tools then !Answer(r, name, t0, probe, t1) && name !in r.cache && name !in r.lastSuccess
            else !Answer(r, name, t0, probe, t1) ==>
              exists at :: Probe(false, at) in Story(r0, all, name) && AnsweredAt(r, name, t0, t1) - at < ttl
  {
    var r0, op := New(ttl, grace), Check(name, t0, probe, t1);
    var r, story := After(r0, ops), Story(r0, ops, name);
    assert (ops + [op])[..|ops|] == ops;
    RunKnows(ttl, grace, ops, name);
    if name in r.tools && !Answer(r, name, t0, probe, t1) {
      if Asks(r, op) {
        assert Probe(false, t1) in story + [Probe(false, t1)];
      } else {
        assert Probe(false, r.cache[name].expires - ttl) in story + [];
      }
    }
  }

  // ---------------------------------------------------------------- what the cache hides

  /**
   When the tool was last asked and the check then answered false, unless a successful probe
   came after it, or the answer was dropped.
   */
  function LastRefusal(r0: Reg, ops: seq<Op>, name: string): Option<int> {
    if ops == [] then None
    else
      var p, op := ops[..|ops| - 1], ops[|ops| - 1];
      match op
      case Check(n, t0, probe, t1) =>
        if n != name || !Asks(After(r0, p), op) then LastRefusal(r0, p, name)
        else if probe then None
        else if Answer(After(r0, p), n, t0, probe, t1) then LastRefusal(r0, p, name)
        else Some(t1)
      case Invalidate(n) => if n == name then None else LastRefusal(r0, p, name)
      case Unregister(n) => if n == name then None else LastRefusal(r0, p, name)
      case Clear => None
      case Register(_, _) => LastRefusal(r0, p, name)
  }

  lemma {:induction false} RefusalCached(ttl: int, grace: int, ops: seq<Op>, name: string)
    ensures var r := After(New(ttl, grace), ops);
            && r.ttl == ttl
            && LastRefusal(New(ttl, grace), ops, name)
               == if name in r.cache && !r.cache[name].available then Some(r.cache[name].expires - ttl) else None
    decreases ops
  {
    if ops != [] {
      RefusalCached(ttl, grace, ops[..|ops| - 1], name);
    }
  }

  /**
   In every run, a check of a registered tool that is available answers false if and only if the
   last refusal still stands and is less than the time to live ago.
   */
  lemma {:induction false} CacheHidesRecovery(ttl: int, grace: int, ops: seq<Op>, name: string, t0: int, t1: int)
    requires name in After(New(ttl, grace), ops).tools
    ensures var r0 := New(ttl, grace);
            var last := LastRefusal(r0, ops, name);
            !Answer(After(r0, ops), name, t0, true, t1) <==> last.Some? && t0 < last.value + ttl
  {
    RefusalCached(ttl, grace, ops, name);
  }

  /** Such a run: a tool found unavailable at 0 and available again before the time to live is over. */
  lemma {:induction false} RecoveryHidden(ttl: int, grace: int, later: nat)
    requires later < ttl <= grace
    ensures var ops := [Register("t", 0), Check("t", 0, false, 0)];
            Timely(ops + [Check("t", later, true, later)]) && !Answer(After(New(ttl, grace), ops), "t", later, true, later)
  {
    var r0, first, ops := New(ttl, grace), [Register("t", 0)], [Register("t", 0), Check("t", 0, false, 0)];
    var all := ops + [Check("t", later, true, later)];
    assert ops[..1] == first && first[..0] == [] && all[..2] == ops;
    assert After(r0, first) == r0.(tools := map["t" := 0]) && Clock(first).None? && Timely(first);
    assert After(r0, ops) == r0.(tools := map["t" := 0], cache := map["t" := Entry(false, ttl)]);
    assert Clock(ops) == Some(0) && Timely(ops);
  }

  /**
   The cache also hides successes: one that falls within the time to live of another does not
   renew the grace period, so a failure after it is refused where it would be forgiven without
   the cache.
   */
  lemma {:induction false} SuccessHidden(ttl: int, grace: int, again: int)
    requires 0 < again < ttl <= grace
    ensures var ops := [Register("t", 0), Check("t", 0, true, 0), Check("t", again, true, again)];
            && !Answer(After(New(ttl, grace), ops), "t", grace, false, grace)
            && Answer(After(New(0, grace), ops), "t", grace, false, grace)
  {
    var first, second, ops := [Register("t", 0)], [Register("t", 0), Check("t", 0, true, 0)], [Register("t", 0), Check("t", 0, true, 0), Check("t", again, true, again)];
    assert ops[..2] == second && second[..1] == first && first[..0] == [];
    SuccessesSeen(ttl, grace, first, second, ops, again);
    SuccessesSeen(0, grace, first, second, ops, again);
  }

  lemma {:induction false} SuccessesSeen(ttl: int, grace: int, first: seq<Op>, second: seq<Op>, ops: seq<Op>, again: int)
    requires first == [Register("t", 0)] && first[..0] == []
    requires second == [Register("t", 0), Check("t", 0, true, 0)] && second[..1] == first
    requires |ops| == 3 && ops[2] == Check("t", again, true, again) && ops[..2] == second && 0 < again
    ensures After(New(ttl, grace), ops).lastSuccess == map["t" := if again < ttl then 0 else again]
    ensures After(New(ttl, grace), ops).cache == map["t" := Entry(true, (if again < ttl then 0 else again) + ttl)]
    ensures "t" in After(New(ttl, grace), ops).tools && After(New(ttl, grace), ops).grace == grace
  {
    var r0 := New(ttl, grace);
    assert After(r0, first) == r0.(tools := map["t" := 0]);
    assert After(r0, second) == r0.(tools := map["t" := 0], cache := map["t" := Entry(true, ttl)], lastSuccess := map["t" := 0]);
  }

  /** A time to live beyond the grace period would break it: the cache answers true for too long. */
  lemma {:induction false} StaleCache(ttl: int, grace: int)
    requires ttl > grace > 0
    ensures var r0, ops, late := New(ttl, grace), [Register("t", 0), Check("t", 0, true, 0)], Check("t", grace, false, grace);
            && Timely(ops + [late])
            && Answer(After(r0, ops), "t", grace, false, grace)
            && !Lately(Story(r0, ops + [late], "t"), grace, grace)
  {
    var r0, first, ops, late := New(ttl, grace), [Register("t", 0)], [Register("t", 0), Check("t", 0, true, 0)], Check("t", grace, false, grace);
    assert ops[..1] == first && first[..0] == [] && (ops + [late])[..2] == ops;
    assert After(r0, first) == r0.(tools := map["t" := 0]) && Story(r0, first, "t") == [];
    assert Story(r0, ops, "t") == [Probe(true, 0)];
    assert Timely([]) && Clock(first).None? && Timely(first);
    assert Clock(ops) == Some(0) && Timely(ops);
    assert Story(r0, ops + [late], "t") == [Probe(true, 0)];
  }
}
