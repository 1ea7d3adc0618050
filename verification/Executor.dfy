/**
 The tool executor: the sequential loop as a method, the concurrent one as a state machine
 whose schedules interleave the spawning loop and the goroutines.
 */
module Executor {
  import opened Options

  datatype ToolCall = ToolCall(name: string, arguments: string, id: string)

  datatype ToolResult = ToolResult(name: string, result: string, err: Option<string>, id: string, failed: bool)

  /** What running a tool comes to: it may not be registered, and it may panic. */
  datatype Behaviour = Absent | Returns(text: string) | Errs(error: string) | Panics(text: string)

  function Failing(call: ToolCall, err: string): ToolResult {
    ToolResult(call.name, "", Some(err), call.id, true)
  }

  /** `runOne` under `safeRunOne`. */
  function SafeRunOne(call: ToolCall, b: Behaviour): ToolResult {
    match b
    case Absent => Failing(call, "tool not found")
    case Returns(text) => ToolResult(call.name, text, None, call.id, false)
    case Errs(error) => Failing(call, error)
    case Panics(text) => Failing(call, "tool panic: " + text)
  }

  /** What a result has to say about its call: only a tool that returned did not fail. */
  predicate Tells(call: ToolCall, b: Behaviour, x: ToolResult) {
    && x.name == call.name && x.id == call.id
    && (!x.failed <==> b.Returns?) && (x.err.None? <==> b.Returns?)
    && match b
       case Absent => x.result == "" && x.err == Some("tool not found")
       case Returns(text) => x.result == text
       case Errs(error) => x.result == "" && x.err == Some(error)
       case Panics(text) => x.result == "" && x.err == Some("tool panic: " + text)
  }

  lemma {:induction false} RunTells(call: ToolCall, b: Behaviour)
    ensures Tells(call, b, SafeRunOne(call, b))
  {
  }

  // ---------------------------------------------------------------- one after the other

  /** From call `k` on: stops at the first failure, or when the context is found cancelled. */
  function Sequential(calls: seq<ToolCall>, tools: ToolCall -> Behaviour, cancelled: nat -> bool, k: nat): seq<ToolResult>
    decreases |calls| - k
  {
    if k >= |calls| then []
    else if cancelled(k) then [Failing(calls[k], "context canceled")]
    else
      var x := SafeRunOne(calls[k], tools(calls[k]));
      if x.failed then [x] else [x] + Sequential(calls, tools, cancelled, k + 1)
  }

  method ExecuteSequential(calls: seq<ToolCall>, tools: ToolCall -> Behaviour, cancelled: nat -> bool) returns (results: seq<ToolResult>)
    ensures results == Sequential(calls, tools, cancelled, 0)
  {
    results := [];
    for k := 0 to |calls|
      invariant results + Sequential(calls, tools, cancelled, k) == Sequential(calls, tools, cancelled, 0)
    {
      if cancelled(k) {
        return results + [Failing(calls[k], "context canceled")];
      }
      var result := SafeRunOne(calls[k], tools(calls[k]));
      Regroup(results, result, Sequential(calls, tools, cancelled, k + 1));
      results := results + [result];
      if result.failed {
        return;
      }
    }
  }

  lemma {:induction false} Regroup(a: seq<ToolResult>, x: ToolResult, b: seq<ToolResult>)
    ensures a + ([x] + b) == a + [x] + b
  {
  }

  /** Call `n` was run and returned. */
  ghost predicate Ran(calls: seq<ToolCall>, tools: ToolCall -> Behaviour, cancelled: nat -> bool, n: nat, x: ToolResult) {
    n < |calls| && !cancelled(n) && tools(calls[n]).Returns? && Tells(calls[n], tools(calls[n]), x)
  }

  /** Call `n` was run, or not run because the context was cancelled. */
  ghost predicate Came(calls: seq<ToolCall>, tools: ToolCall -> Behaviour, cancelled: nat -> bool, n: nat, x: ToolResult) {
    && n < |calls|
    && if cancelled(n) then x == ToolResult(calls[n].name, "", Some("context canceled"), calls[n].id, true)
       else Tells(calls[n], tools(calls[n]), x)
  }

  /** The results `r` from call `k` on: all but the last returned, and only a failure or a cancellation ends them early. */
  ghost predicate Runs(calls: seq<ToolCall>, tools: ToolCall -> Behaviour, cancelled: nat -> bool, k: nat, r: seq<ToolResult>) {
    && k + |r| <= |calls|
    && (forall j :: 0 <= j < |r| - 1 ==> Ran(calls, tools, cancelled, k + j, r[j]))
    && (r != [] ==> Came(calls, tools, cancelled, k + |r| - 1, r[|r| - 1]))
    && (k + |r| < |calls| ==> r != [] && (cancelled(k + |r| - 1) || !tools(calls[k + |r| - 1]).Returns?))
  }

  lemma {:induction false} RunsFrom(calls: seq<ToolCall>, tools: ToolCall -> Behaviour, cancelled: nat -> bool, k: nat, x: ToolResult, rest: seq<ToolResult>)
    requires Ran(calls, tools, cancelled, k, x) && Runs(calls, tools, cancelled, k + 1, rest)
    ensures Runs(calls, tools, cancelled, k, [x] + rest)
  {
    var r := [x] + rest;
    forall j | 0 <= j < |r| - 1
      ensures Ran(calls, tools, cancelled, k + j, r[j])
    {
      if j > 0 {
        assert Ran(calls, tools, cancelled, k + 1 + (j - 1), rest[j - 1]);
      }
    }
  }

  lemma {:induction false} SequentialMeaning(calls: seq<ToolCall>, tools: ToolCall -> Behaviour, cancelled: nat -> bool, k: nat)
    requires k <= |calls|
    ensures Runs(calls, tools, cancelled, k, Sequential(calls, tools, cancelled, k))
    decreases |calls| - k
  {
    if k < |calls| && !cancelled(k) {
      var x := SafeRunOne(calls[k], tools(calls[k]));
      RunTells(calls[k], tools(calls[k]));
      if !x.failed {
        SequentialMeaning(calls, tools, cancelled, k + 1);
        RunsFrom(calls, tools, cancelled, k, x, Sequential(calls, tools, cancelled, k + 1));
      }
    }
  }

  // ---------------------------------------------------------------- all at once

  datatype Phase = Idle | Spawned | Running | Written | Released | Finished

  /** Where the spawning loop is with call `next`; past the last call it waits. */
  datatype Main = AtAdd | AtAcquire | AtSpawn | Gone

  datatype Pool = Pool(
    calls: seq<ToolCall>,
    cap: nat,
    main: Main,
    next: nat,
    phases: seq<Phase>,
    results: seq<Option<ToolResult>>,
    sem: nat,
    wg: int)

  datatype Move =
    | Add | Acquire | Spawn
    | Begin(k: nat) | Write(k: nat, b: Behaviour) | Release(k: nat) | Done(k: nat)
    | Return

  function MaxConcurrency(cpus: int): (n: nat)
    ensures n >= 4 && n >= cpus && (n == 4 || n == cpus)
  {
    if cpus > 4 then cpus else 4
  }

  function Start(calls: seq<ToolCall>, cpus: int): Pool {
    Pool(calls, MaxConcurrency(cpus), AtAdd, 0, seq(|calls|, _ => Idle), seq(|calls|, _ => None), 0, 0)
  }

  predicate At(p: Pool, k: nat, phase: Phase) {
    k < |p.phases| && k < |p.calls| && k < |p.results| && p.phases[k] == phase
  }

  /** A send on the semaphore channel blocks while it is full; `Wait` blocks until the count is zero. */
  predicate Enabled(p: Pool, m: Move) {
    match m
    case Add => p.main == AtAdd && p.next < |p.calls|
    case Acquire => p.main == AtAcquire && p.sem < p.cap
    case Spawn => p.main == AtSpawn && At(p, p.next, Idle)
    case Begin(k) => At(p, k, Spawned)
    case Write(k, _) => At(p, k, Running)
    case Release(k) => At(p, k, Written) && p.sem > 0
    case Done(k) => At(p, k, Released)
    case Return => p.main == AtAdd && p.next == |p.calls| && p.wg == 0
  }

  function Apply(p: Pool, m: Move): Pool
    requires Enabled(p, m)
  {
    match m
    case Add => p.(wg := p.wg + 1, main := AtAcquire)
    case Acquire => p.(sem := p.sem + 1, main := AtSpawn)
    case Spawn => p.(phases := p.phases[p.next := Spawned], next := p.next + 1, main := AtAdd)
    case Begin(k) => p.(phases := p.phases[k := Running])
    case Write(k, b) => p.(results := p.results[k := Some(SafeRunOne(p.calls[k], b))], phases := p.phases[k := Written])
    case Release(k) => p.(sem := p.sem - 1, phases := p.phases[k := Released])
    case Done(k) => p.(wg := p.wg - 1, phases := p.phases[k := Finished])
    case Return => p.(main := Gone)
  }

  ghost predicate Legal(p: Pool, ms: seq<Move>)
    decreases |ms|, 0
  {
    ms == [] || (Legal(p, ms[..|ms| - 1]) && Enabled(After(p, ms[..|ms| - 1]), ms[|ms| - 1]))
  }

  ghost function After(p: Pool, ms: seq<Move>): Pool
    requires Legal(p, ms)
    decreases |ms|, 1
  {
    if ms == [] then p else Apply(After(p, ms[..|ms| - 1]), ms[|ms| - 1])
  }

  // ---------------------------------------------------------------- counting goroutines

  function Holds(ph: Phase): nat { if ph == Spawned || ph == Running || ph == Written then 1 else 0 }

  function InFlight(ph: Phase): nat { if ph == Running then 1 else 0 }

  function Alive(ph: Phase): nat { if ph == Idle || ph == Finished then 0 else 1 }

  function Rank(ph: Phase): nat {
    match ph
    case Idle => 0
    case Spawned => 0
    case Running => 1
    case Written => 2
    case Released => 3
    case Finished => 4
  }

  function Sum(ps: seq<Phase>, w: Phase -> nat): nat {
    if ps == [] then 0 else w(ps[0]) + Sum(ps[1..], w)
  }

  lemma {:induction false} SumUpdate(ps: seq<Phase>, k: nat, ph: Phase, w: Phase -> nat)
    requires k < |ps|
    ensures Sum(ps[k := ph], w) == Sum(ps, w) - w(ps[k]) + w(ph)
    decreases ps
  {
    if k == 0 {
      assert ps[0 := ph][1..] == ps[1..];
    } else {
      SumUpdate(ps[1..], k - 1, ph, w);
      assert ps[k := ph][1..] == ps[1..][k - 1 := ph];
    }
  }

  lemma {:induction false} SumIdle(n: nat, w: Phase -> nat)
    requires w(Idle) == 0
    ensures Sum(seq(n, _ => Idle), w) == 0
    decreases n
  {
    if n > 0 {
      SumIdle(n - 1, w);
      assert seq(n, _ => Idle)[1..] == seq(n - 1, _ => Idle);
    }
  }

  lemma {:induction false} SumBelow(ps: seq<Phase>, v: Phase -> nat, w: Phase -> nat)
    requires forall ph :: v(ph) <= w(ph)
    ensures Sum(ps, v) <= Sum(ps, w)
    decreases ps
  {
    if ps != [] {
      SumBelow(ps[1..], v, w);
    }
  }

  lemma {:induction false} SumPositive(ps: seq<Phase>, w: Phase -> nat) returns (k: nat)
    requires Sum(ps, w) > 0
    ensures k < |ps| && w(ps[k]) > 0
    decreases ps
  {
    if w(ps[0]) > 0 {
      k := 0;
    } else {
      var j := SumPositive(ps[1..], w);
      k := j + 1;
    }
  }

  lemma {:induction false} SumZero(ps: seq<Phase>, w: Phase -> nat, k: nat)
    requires Sum(ps, w) == 0 && k < |ps|
    ensures w(ps[k]) == 0
    decreases ps
  {
    if k > 0 {
      SumZero(ps[1..], w, k - 1);
    }
  }

  lemma {:induction false} SumAll(ps: seq<Phase>)
    requires forall k :: 0 <= k < |ps| ==> ps[k] == Finished
    ensures Sum(ps, Rank) == 4 * |ps|
    decreases ps
  {
    if ps != [] {
      SumAll(ps[1..]);
    }
  }

  // ---------------------------------------------------------------- the invariant

  /** The loop has spawned the calls before `next`; a slot is filled exactly from `Write` on. */
  ghost predicate Slots(p: Pool) {
    && |p.phases| == |p.results| == |p.calls| && p.next <= |p.calls|
    && (p.main == AtAcquire || p.main == AtSpawn ==> p.next < |p.calls|)
    && (forall k :: 0 <= k < |p.calls| ==> (p.phases[k] == Idle <==> k >= p.next))
    && (forall k :: 0 <= k < |p.calls| ==> (p.results[k].Some? <==> p.phases[k] == Written || p.phases[k] == Released || p.phases[k] == Finished))
    && (p.main == Gone ==> p.next == |p.calls| && p.wg == 0)
  }

  /** The semaphore counts the slots held, the wait group the goroutines that have not finished. */
  ghost predicate Counts(p: Pool) {
    && p.sem == Sum(p.phases, Holds) + (if p.main == AtSpawn then 1 else 0)
    && p.wg == Sum(p.phases, Alive) + (if p.main == AtAcquire || p.main == AtSpawn then 1 else 0)
    && p.sem <= p.cap && p.cap > 0
  }

  /** Moves made so far. */
  ghost function Progress(p: Pool): nat {
    3 * p.next + (if p.main == AtAcquire then 1 else if p.main == AtSpawn then 2 else if p.main == Gone then 1 else 0) + Sum(p.phases, Rank)
  }

  lemma {:induction false} StartHolds(calls: seq<ToolCall>, cpus: int)
    ensures var p := Start(calls, cpus); Slots(p) && Counts(p) && Progress(p) == 0
  {
    SumIdle(|calls|, Holds);
    SumIdle(|calls|, Alive);
    SumIdle(|calls|, Rank);
  }

  /** One move keeps the counts, and counts as one. */
  ghost predicate Moved(p: Pool, q: Pool) {
    Counts(q) && Progress(q) == Progress(p) + 1
  }

  lemma {:induction false} LoopMoves(p: Pool, m: Move)
    requires Slots(p) && Counts(p) && Enabled(p, m) && (m.Add? || m.Acquire? || m.Spawn? || m.Return?)
    ensures Moved(p, Apply(p, m))
  {
    if m.Spawn? {
      SumsUpdate(p.phases, p.next, Spawned);
    }
  }

  lemma {:induction false} GoroutineMoves(p: Pool, m: Move)
    requires Slots(p) && Counts(p) && Enabled(p, m) && (m.Begin? || m.Write? || m.Release? || m.Done?)
    ensures Moved(p, Apply(p, m))
  {
    match m {
      case Begin(k) => SumsUpdate(p.phases, k, Running);
      case Write(k, _) => SumsUpdate(p.phases, k, Written);
      case Release(k) => SumsUpdate(p.phases, k, Released);
      case Done(k) => SumsUpdate(p.phases, k, Finished);
    }
  }

  lemma {:induction false} SlotsStep(p: Pool, m: Move)
    requires Slots(p) && Enabled(p, m) && (m.Done? ==> p.main != Gone)
    ensures Slots(Apply(p, m))
  {
  }

  /** A live goroutine keeps the wait group from zero, so the executor has not returned. */
  lemma {:induction false} StillWaiting(p: Pool, k: nat)
    requires Slots(p) && Counts(p) && At(p, k, Released)
    ensures p.main != Gone
  {
    if p.main == Gone {
      SumZero(p.phases, Alive, k);
    }
  }

  lemma {:induction false} StepHolds(p: Pool, m: Move)
    requires Slots(p) && Counts(p) && Enabled(p, m)
    ensures Slots(Apply(p, m)) && Moved(p, Apply(p, m))
  {
    if m.Add? || m.Acquire? || m.Spawn? || m.Return? {
      LoopMoves(p, m);
    } else {
      GoroutineMoves(p, m);
      if m.Done? {
        StillWaiting(p, m.k);
      }
    }
    SlotsStep(p, m);
  }

  lemma {:induction false} SumsUpdate(ps: seq<Phase>, k: nat, ph: Phase)
    requires k < |ps|
    ensures Sum(ps[k := ph], Holds) == Sum(ps, Holds) - Holds(ps[k]) + Holds(ph)
    ensures Sum(ps[k := ph], Alive) == Sum(ps, Alive) - Alive(ps[k]) + Alive(ph)
    ensures Sum(ps[k := ph], Rank) == Sum(ps, Rank) - Rank(ps[k]) + Rank(ph)
  {
    SumUpdate(ps, k, ph, Holds);
    SumUpdate(ps, k, ph, Alive);
    SumUpdate(ps, k, ph, Rank);
  }

  lemma {:induction false} RunHolds(calls: seq<ToolCall>, cpus: int, ms: seq<Move>)
    requires Legal(Start(calls, cpus), ms)
    ensures var p := After(Start(calls, cpus), ms);
            Slots(p) && Counts(p) && Progress(p) == |ms| && p.calls == calls && p.cap == MaxConcurrency(cpus)
    decreases ms
  {
    if ms == [] {
      StartHolds(calls, cpus);
    } else {
      var q := ms[..|ms| - 1];
      RunHolds(calls, cpus, q);
      StepHolds(After(Start(calls, cpus), q), ms[|ms| - 1]);
    }
  }

  // ---------------------------------------------------------------- what every schedule keeps

  /** How often slot `k` is written. */
  function Writes(ms: seq<Move>, k: nat): nat {
    if ms == [] then 0
    else
      var m := ms[|ms| - 1];
      Writes(ms[..|ms| - 1], k) + (if m.Write? && m.k == k then 1 else 0)
  }

  /** What was last written to slot `k`. */
  function Wrote(ms: seq<Move>, k: nat): Option<Behaviour> {
    if ms == [] then None
    else
      var m := ms[|ms| - 1];
      if m.Write? && m.k == k then Some(m.b) else Wrote(ms[..|ms| - 1], k)
  }

  /** A slot is written at most once, and holds the result of its own call. */
  lemma {:induction false} SlotWrites(calls: seq<ToolCall>, cpus: int, ms: seq<Move>, k: nat)
    requires Legal(Start(calls, cpus), ms) && k < |calls|
    ensures var p := After(Start(calls, cpus), ms);
            && |p.results| == |calls|
            && Writes(ms, k) == (if p.results[k].Some? then 1 else 0)
            && (if p.results[k].Some? then Wrote(ms, k).Some? && Tells(calls[k], Wrote(ms, k).value, p.results[k].value) else Wrote(ms, k).None?)
    decreases ms
  {
    if ms != [] {
      var q := ms[..|ms| - 1];
      SlotWrites(calls, cpus, q, k);
      RunHolds(calls, cpus, q);
    }
  }

  /**
   In every schedule at most `MaxConcurrency` tools are in flight; the executor returns with
   the seventh move per call and one more, and then every slot has been written exactly once,
   with the result of its own call.
   */
  lemma {:induction false} PoolSafe(calls: seq<ToolCall>, cpus: int, ms: seq<Move>)
    requires Legal(Start(calls, cpus), ms)
    ensures var p := After(Start(calls, cpus), ms);
            && Sum(p.phases, InFlight) <= MaxConcurrency(cpus)
            && |ms| <= 7 * |calls| + 1 && (p.main == Gone <==> |ms| == 7 * |calls| + 1)
            && (p.main == Gone ==> forall k :: 0 <= k < |calls| ==> Settled(calls, ms, p, k))
  {
    var p := After(Start(calls, cpus), ms);
    RunHolds(calls, cpus, ms);
    SumBelow(p.phases, InFlight, Holds);
    RankBound(p.phases);
    if p.main == Gone {
      forall k | 0 <= k < |calls|
        ensures Settled(calls, ms, p, k)
      {
        SlotWrites(calls, cpus, ms, k);
        SumZero(p.phases, Alive, k);
      }
      AllFinished(p);
    }
  }

  lemma {:induction false} AllFinished(p: Pool)
    requires Slots(p) && Counts(p) && p.main == Gone
    ensures Sum(p.phases, Rank) == 4 * |p.calls|
  {
    forall k | 0 <= k < |p.phases|
      ensures p.phases[k] == Finished
    {
      SumZero(p.phases, Alive, k);
    }
    SumAll(p.phases);
  }

  ghost predicate Settled(calls: seq<ToolCall>, ms: seq<Move>, p: Pool, k: nat)
    requires k < |calls|
  {
    && |p.results| == |calls|
    && Writes(ms, k) == 1 && Wrote(ms, k).Some?
    && p.results[k].Some? && Tells(calls[k], Wrote(ms, k).value, p.results[k].value)
  }

  lemma {:induction false} RankBound(ps: seq<Phase>)
    ensures Sum(ps, Rank) <= 4 * |ps|
    decreases ps
  {
    if ps != [] {
      RankBound(ps[1..]);
    }
  }

  /**
   The executor never gets stuck: until it has returned some move is possible.  With the
   bound on the length of a schedule, every schedule that goes on as long as it can returns.
   */
  lemma {:induction false} NeverStuck(calls: seq<ToolCall>, cpus: int, ms: seq<Move>) returns (m: Move)
    requires Legal(Start(calls, cpus), ms) && After(Start(calls, cpus), ms).main != Gone
    ensures Enabled(After(Start(calls, cpus), ms), m)
  {
    var p := After(Start(calls, cpus), ms);
    RunHolds(calls, cpus, ms);
    if p.main == AtSpawn {
      m := Spawn;
    } else if p.main == AtAcquire && p.sem < p.cap {
      m := Acquire;
    } else if p.main == AtAdd && p.next < |p.calls| {
      m := Add;
    } else if p.main == AtAdd && p.wg == 0 {
      m := Return;
    } else {
      if p.main == AtAcquire {
        SumBelow(p.phases, Holds, Alive);
      }
      var k := SumPositive(p.phases, Alive);
      m := WorkerMove(p, k);
    }
  }

  lemma {:induction false} WorkerMove(p: Pool, k: nat) returns (m: Move)
    requires Slots(p) && Counts(p) && k < |p.phases| && Alive(p.phases[k]) > 0
    ensures Enabled(p, m)
  {
    match p.phases[k] {
      case Spawned => m := Begin(k);
      case Running => m := Write(k, Absent);
      case Written =>
        m := Release(k);
        if Sum(p.phases, Holds) == 0 {
          SumZero(p.phases, Holds, k);
        }
      case Released => m := Done(k);
    }
  }

  // ---------------------------------------------------------------- the two ways agree

  /** Every tool behaves the same whenever it is called with the same call. */
  ghost predicate Uses(calls: seq<ToolCall>, tools: ToolCall -> Behaviour, ms: seq<Move>) {
    forall i :: 0 <= i < |ms| && ms[i].Write? && ms[i].k < |calls| ==> ms[i].b == tools(calls[ms[i].k])
  }

  lemma {:induction false} WroteIs(calls: seq<ToolCall>, tools: ToolCall -> Behaviour, ms: seq<Move>, k: nat)
    requires Uses(calls, tools, ms) && k < |calls|
    ensures Wrote(ms, k).Some? ==> Wrote(ms, k).value == tools(calls[k])
    decreases ms
  {
    if ms != [] {
      WroteIs(calls, tools, ms[..|ms| - 1], k);
    }
  }

  /** With deterministic tools every schedule that returns gives the same results. */
  lemma {:induction false} SchedulesAgree(calls: seq<ToolCall>, cpus: int, tools: ToolCall -> Behaviour, ms: seq<Move>)
    requires Legal(Start(calls, cpus), ms) && Uses(calls, tools, ms) && After(Start(calls, cpus), ms).main == Gone
    ensures var p := After(Start(calls, cpus), ms);
            |p.results| == |calls| && forall k :: 0 <= k < |calls| ==> p.results[k].Some? && Tells(calls[k], tools(calls[k]), p.results[k].value)
  {
    PoolSafe(calls, cpus, ms);
    var p := After(Start(calls, cpus), ms);
    RunHolds(calls, cpus, ms);
    forall k | 0 <= k < |calls|
      ensures p.results[k].Some? && Tells(calls[k], tools(calls[k]), p.results[k].value)
    {
      assert Settled(calls, ms, p, k);
      WroteIs(calls, tools, ms, k);
    }
  }

  /**
   With deterministic tools and no cancellation, the sequential results are a prefix of those
   of any concurrent run, up to and including the first failure.
   */
  lemma {:induction false} SequentialIsPrefix(calls: seq<ToolCall>, cpus: int, tools: ToolCall -> Behaviour, cancelled: nat -> bool, ms: seq<Move>)
    requires Legal(Start(calls, cpus), ms) && Uses(calls, tools, ms) && After(Start(calls, cpus), ms).main == Gone
    requires forall k :: !cancelled(k)
    ensures var r, p := Sequential(calls, tools, cancelled, 0), After(Start(calls, cpus), ms);
            && |r| <= |p.results| == |calls|
            && (forall k :: 0 <= k < |r| ==> p.results[k] == Some(r[k]))
            && (forall k :: 0 <= k < |r| - 1 ==> !r[k].failed)
            && (|r| < |calls| ==> r != [] && r[|r| - 1].failed)
  {
    SchedulesAgree(calls, cpus, tools, ms);
    SequentialMeaning(calls, tools, cancelled, 0);
    var r := Sequential(calls, tools, cancelled, 0);
    forall k | 0 <= k < |r|
      ensures Tells(calls[k], tools(calls[k]), r[k]) && (k < |r| - 1 ==> !r[k].failed)
    {
      if k < |r| - 1 {
        assert Ran(calls, tools, cancelled, 0 + k, r[k]);
      }
    }
  }
}
