/**
 What a streaming call does, exactly: how often it connects, which response it takes, which
 fallbacks it switches to, and how it ends.
 */
module FailoverExact {
  import opened Options
  import opened Protocol
  import opened Sse
  import opened Failover
  import opened FailoverSafe
  import Breaker
  import Retry

  // ---------------------------------------------------------------- the attempts

  /** What an attempt finds: the breaker, the channel, and the error of the attempt before. */
  datatype Wire = Wire(b: Option<Breaker.Circuit>, sent: seq<Chunk>, tries: nat, last: Option<Failure>)

  /** What is asked once and for all: the channel, the model, the network. */
  datatype World = World(ok: nat -> bool, miniMax: bool, env: nat -> Try)

  function Sending(w: Wire, t: Try): Retry.Finish {
    Retry.Send(w.b, t.managed, t.net)
  }

  /** The response, if the request is answered. */
  function Reads(g: World, w: Wire, t: Try): Reading {
    Response(g.ok, g.miniMax, w.sent, w.tries, t)
  }

  /** The attempt is the last: its request is answered, and not by a reset before any output. */
  predicate Settles(g: World, w: Wire, t: Try) {
    && Sending(w, t).end.Answered?
    && var x := Reads(g, w, t); !(x.err.Some? && x.err.value.reset && !x.r.emitted)
  }

  /** What an attempt that does not settle the call leaves to the next. */
  function Leaves(g: World, w: Wire, t: Try): Wire {
    var f := Sending(w, t);
    if !f.end.Answered? then Wire(f.b, w.sent, w.tries, Some(Describe(f.end)))
    else
      var x := Reads(g, w, t);
      Wire(f.b, x.r.sent, x.r.tries, if x.err.Some? then Some(x.err.value.failure) else None)
  }

  /** What attempt `k` finds if no attempt before it settles the call. */
  function Before(g: World, b: Option<Breaker.Circuit>, k: nat): Wire {
    if k == 0 then Wire(b, [], 0, None) else Leaves(g, Before(g, b, k - 1), g.env(k - 1))
  }

  /** The number of the last attempt: the reconnections, then one switch more than the fallbacks to be tried, two if that is not set. */
  function LastAttempt(maxReconnect: int, retries: int): int {
    maxReconnect + (if retries > 0 then retries else 2) + 1
  }

  /** How many attempts connect: one, and one for each reconnection. */
  function Rounds(maxReconnect: int, retries: int): nat {
    if LastAttempt(maxReconnect, retries) < 0 then 0 else if maxReconnect <= 0 then 1 else maxReconnect + 1
  }

  /** No attempt before `k` settles the call or is cancelled while it waits. */
  ghost predicate Goes(g: World, b: Option<Breaker.Circuit>, k: nat) {
    forall j :: 0 <= j < k ==> !Settles(g, Before(g, b, j), g.env(j)) && (j > 0 ==> !g.env(j).cancelled)
  }

  /** The requests of the first `k` attempts. */
  function Asked(g: World, b: Option<Breaker.Circuit>, target: Target, k: nat): seq<Act> {
    if k == 0 then [] else Asked(g, b, target, k - 1) + [Connection(target, Before(g, b, k - 1), g.env(k - 1))]
  }

  function Connection(target: Target, w: Wire, t: Try): (m: Act)
    ensures m.Request?
  {
    Request(target, Retry.Posts(Sending(w, t).log))
  }

  /**
   How a reading ends, for every response: well if it is finished or just ends, with an error if
   it comes to an `error` payload or a cancellation, if the scanner fails, or if it stalls.  The
   error is a reset only if the scanner says so, and an interruption if there was output; only
   a stall is told to the consumer here.
   */
  lemma {:induction false} ReadExact(r: Read, body: Body)
    ensures var x, y := ReadStream(r, body), Scan(r, body.lines);
            var torn, idle := y.Drained? && body.scanErr.Some?, y.Drained? && body.scanErr.None? && body.stalled;
            && (x.err.Some? <==> y.Failed? || torn || idle)
            && (x.err.Some? ==> (x.err.value.reset <==> torn && body.scanErr.value) && (x.err.value.failure.interrupted <==> y.r.emitted))
            && x.r.emitted == y.r.emitted
            && x.r.sent == if idle then Told(y.r.ok, y.r.sent, y.r.tries, Some(Failure(IDLE, false))) else y.r.sent
  {
  }

  // ---------------------------------------------------------------- the switches

  predicate Allows(t: Try) {
    t.mayFailover && t.fallback.Some?
  }

  /** The first attempt from `k` on that allows no switch, or the one after the last. */
  function Barred(env: nat -> Try, k: nat, end: int): (r: nat)
    ensures r >= k
    decreases end - k
  {
    if k > end || !Allows(env(k)) then k else Barred(env, k + 1, end)
  }

  /** The switches of the attempts from `k` to before `m`. */
  function Switches(env: nat -> Try, k: nat, m: nat): seq<Act>
    requires forall j :: k <= j < m ==> env(j).fallback.Some?
    decreases m - k
  {
    if k >= m then [] else [Switch(env(k).fallback.value)] + Switches(env, k + 1, m)
  }

  /** The channel after an error is offered to it. */
  function Told(ok: nat -> bool, sent: seq<Chunk>, tries: nat, e: Option<Failure>): seq<Chunk> {
    if ok(tries) then sent + [ErrorChunk(e)] else sent
  }

  // ---------------------------------------------------------------- the loop goes on

  /** The loop's state at attempt `k`, by the history. */
  ghost predicate Stands(g: World, b: Option<Breaker.Circuit>, target: Target, k: nat, s: State, last: Option<Failure>) {
    var w := Before(g, b, k);
    && s.target == target && target.miniMax == g.miniMax
    && s.b == w.b && s.sent == w.sent && s.tries == w.tries && last == w.last && s.log == Asked(g, b, target, k)
  }

  lemma {:induction false} AskGoes(g: World, b: Option<Breaker.Circuit>, target: Target, k: nat, s: State, last: Option<Failure>)
    requires Stands(g, b, target, k, s, last) && !Settles(g, Before(g, b, k), g.env(k))
    ensures var z := Ask(g.ok, s, false, g.env(k)); z.Again? && !z.emitted && Stands(g, b, target, k + 1, z.s, z.last)
  {
  }

  /** The end of a call that attempt `k` settles. */
  ghost predicate Taken(g: World, b: Option<Breaker.Circuit>, target: Target, k: nat, z: State) {
    var w := Before(g, b, k);
    var f, x := Sending(w, g.env(k)), Reads(g, w, g.env(k));
    && z.target == target && z.log == Asked(g, b, target, k + 1)
    && z.sent == (if x.err.Some? && !x.r.emitted then Told(g.ok, x.r.sent, x.r.tries, Some(x.err.value.failure)) else x.r.sent)
    && z.b == if x.err.None? then Retry.Praise(f.b) else f.b
  }

  lemma {:induction false} AskSettles(g: World, b: Option<Breaker.Circuit>, target: Target, k: nat, s: State, last: Option<Failure>)
    requires Stands(g, b, target, k, s, last) && Settles(g, Before(g, b, k), g.env(k))
    ensures var z := Ask(g.ok, s, false, g.env(k)); z.Quit? && Taken(g, b, target, k, z.s)
  {
  }

  // ---------------------------------------------------------------- the loop runs out

  /** What the attempts from `k` on make of a call whose reconnections are used up. */
  ghost predicate Switched(env: nat -> Try, ok: nat -> bool, k: nat, end: int, s: State, last: Option<Failure>, z: State) {
    var m := Barred(env, k, end);
    && (forall j :: k <= j < m ==> Allows(env(j)))
    && z.log == s.log + Switches(env, k, m)
    && z.target == (if m == k then s.target else env(m - 1).fallback.value)
    && z.sent == Told(ok, s.sent, s.tries, last) && z.b == s.b
  }

  lemma {:induction false} SwitchOne(env: nat -> Try, ok: nat -> bool, k: nat, end: int, s: State, last: Option<Failure>, z: State)
    requires k <= end && Allows(env(k))
    requires var s1 := s.(target := env(k).fallback.value, log := s.log + [Switch(env(k).fallback.value)]);
             Switched(env, ok, k + 1, end, s1, last, z)
    ensures Switched(env, ok, k, end, s, last, z)
  {
    var m := Barred(env, k, end);
    assert s.log + [Switch(env(k).fallback.value)] + Switches(env, k + 1, m) == s.log + ([Switch(env(k).fallback.value)] + Switches(env, k + 1, m));
  }

  lemma {:induction false} SwitchNone(env: nat -> Try, ok: nat -> bool, k: nat, end: int, s: State, last: Option<Failure>)
    requires k > end || !Allows(env(k))
    ensures Switched(env, ok, k, end, s, last, Tell(ok, s, last))
  {
    assert s.log + [] == s.log;
  }

  lemma {:induction false} SwitchLoop(maxReconnect: int, retries: int, ok: nat -> bool, s: State, k: nat, last: Option<Failure>, env: nat -> Try)
    requires k >= Rounds(maxReconnect, retries)
    ensures Switched(env, ok, k, LastAttempt(maxReconnect, retries), s, last, Attempts(maxReconnect, retries, ok, s, k, false, last, env))
    decreases LastAttempt(maxReconnect, retries) + 1 - k
  {
    var end := LastAttempt(maxReconnect, retries);
    if k > end || !Allows(env(k)) {
      SwitchNone(env, ok, k, end, s, last);
    } else {
      var s1 := s.(target := env(k).fallback.value, log := s.log + [Switch(env(k).fallback.value)]);
      SwitchLoop(maxReconnect, retries, ok, s1, k + 1, last, env);
      SwitchOne(env, ok, k, end, s, last, Attempts(maxReconnect, retries, ok, s, k, false, last, env));
    }
  }

  // ---------------------------------------------------------------- the whole call

  /** A call in which no attempt is settled: the switches that are allowed follow, and then the error. */
  ghost predicate RunOut(maxReconnect: int, retries: int, g: World, b: Option<Breaker.Circuit>, target: Target, z: State) {
    var k := Rounds(maxReconnect, retries);
    var w := Before(g, b, k);
    Switched(g.env, g.ok, k, LastAttempt(maxReconnect, retries), State(target, w.b, w.sent, w.tries, Asked(g, b, target, k)), w.last, z)
  }

  /** A call that is cancelled while it waits for attempt `k` ends without a word. */
  ghost predicate GivenUp(g: World, b: Option<Breaker.Circuit>, target: Target, k: nat, z: State) {
    var w := Before(g, b, k);
    z.target == target && z.log == Asked(g, b, target, k) && z.sent == w.sent && z.b == w.b
  }

  /** How a call ends: attempt `k` settles it or is cancelled, or all connecting attempts have been made. */
  ghost predicate EndsAt(maxReconnect: int, retries: int, g: World, b: Option<Breaker.Circuit>, target: Target, k: nat, z: State) {
    && k <= Rounds(maxReconnect, retries) && Goes(g, b, k)
    && if k == Rounds(maxReconnect, retries) then RunOut(maxReconnect, retries, g, b, target, z)
       else if k > 0 && g.env(k).cancelled then GivenUp(g, b, target, k, z)
       else Settles(g, Before(g, b, k), g.env(k)) && Taken(g, b, target, k, z)
  }

  lemma {:induction false} GoesOn(g: World, b: Option<Breaker.Circuit>, k: nat)
    requires Goes(g, b, k) && !Settles(g, Before(g, b, k), g.env(k)) && (k > 0 ==> !g.env(k).cancelled)
    ensures Goes(g, b, k + 1)
  {
  }

  /** A connecting attempt of the loop. */
  lemma {:induction false} Connecting(maxReconnect: int, retries: int, ok: nat -> bool, s: State, k: nat, last: Option<Failure>, env: nat -> Try)
    requires k < Rounds(maxReconnect, retries)
    ensures Attempts(maxReconnect, retries, ok, s, k, false, last, env)
         == if k > 0 && env(k).cancelled then s
            else match Ask(ok, s, false, env(k))
                 case Quit(z) => z
                 case Again(z, emitted, e) => Attempts(maxReconnect, retries, ok, z, k + 1, emitted, e, env)
  {
  }

  /** The loop at attempt `k`, all attempts before it having gone on. */
  ghost predicate LoopAt(maxReconnect: int, retries: int, g: World, b: Option<Breaker.Circuit>, target: Target, k: nat, s: State, last: Option<Failure>) {
    k <= Rounds(maxReconnect, retries) && Goes(g, b, k) && Stands(g, b, target, k, s, last)
  }

  lemma {:induction false} EndRunOut(maxReconnect: int, retries: int, g: World, b: Option<Breaker.Circuit>, target: Target, k: nat, s: State, last: Option<Failure>)
    requires LoopAt(maxReconnect, retries, g, b, target, k, s, last) && k == Rounds(maxReconnect, retries)
    ensures EndsAt(maxReconnect, retries, g, b, target, k, Attempts(maxReconnect, retries, g.ok, s, k, false, last, g.env))
  {
    SwitchLoop(maxReconnect, retries, g.ok, s, k, last, g.env);
  }

  lemma {:induction false} EndSettled(maxReconnect: int, retries: int, g: World, b: Option<Breaker.Circuit>, target: Target, k: nat, s: State, last: Option<Failure>)
    requires LoopAt(maxReconnect, retries, g, b, target, k, s, last) && k < Rounds(maxReconnect, retries)
    requires (k > 0 && g.env(k).cancelled) || Settles(g, Before(g, b, k), g.env(k))
    ensures EndsAt(maxReconnect, retries, g, b, target, k, Attempts(maxReconnect, retries, g.ok, s, k, false, last, g.env))
  {
    Connecting(maxReconnect, retries, g.ok, s, k, last, g.env);
    if !(k > 0 && g.env(k).cancelled) {
      AskSettles(g, b, target, k, s, last);
    }
  }

  lemma {:induction false} LoopGoes(maxReconnect: int, retries: int, g: World, b: Option<Breaker.Circuit>, target: Target, k: nat, s: State, last: Option<Failure>)
    requires LoopAt(maxReconnect, retries, g, b, target, k, s, last) && k < Rounds(maxReconnect, retries)
    requires !(k > 0 && g.env(k).cancelled) && !Settles(g, Before(g, b, k), g.env(k))
    ensures var x := Ask(g.ok, s, false, g.env(k));
            && x.Again? && LoopAt(maxReconnect, retries, g, b, target, k + 1, x.s, x.last)
            && Attempts(maxReconnect, retries, g.ok, s, k, false, last, g.env)
               == Attempts(maxReconnect, retries, g.ok, x.s, k + 1, false, x.last, g.env)
  {
    Connecting(maxReconnect, retries, g.ok, s, k, last, g.env);
    AskGoes(g, b, target, k, s, last);
    GoesOn(g, b, k);
  }

  lemma {:induction false} LoopExact(maxReconnect: int, retries: int, g: World, b: Option<Breaker.Circuit>, target: Target, k: nat, s: State, last: Option<Failure>)
    returns (m: nat)
    requires LoopAt(maxReconnect, retries, g, b, target, k, s, last)
    ensures EndsAt(maxReconnect, retries, g, b, target, m, Attempts(maxReconnect, retries, g.ok, s, k, false, last, g.env))
    decreases Rounds(maxReconnect, retries) - k
  {
    m := k;
    if k == Rounds(maxReconnect, retries) {
      EndRunOut(maxReconnect, retries, g, b, target, k, s, last);
    } else if (k > 0 && g.env(k).cancelled) || Settles(g, Before(g, b, k), g.env(k)) {
      EndSettled(maxReconnect, retries, g, b, target, k, s, last);
    } else {
      LoopGoes(maxReconnect, retries, g, b, target, k, s, last);
      var x := Ask(g.ok, s, false, g.env(k));
      m := LoopExact(maxReconnect, retries, g, b, target, k + 1, x.s, x.last);
    }
  }

  lemma {:induction false} RequestsCat(a: seq<Act>, b: seq<Act>)
    ensures Requests(a + b) == Requests(a) + Requests(b)
    decreases b
  {
    if b == [] {
      assert a + b == a;
    } else {
      assert (a + b)[..|a + b| - 1] == a + b[..|b| - 1];
      RequestsCat(a, b[..|b| - 1]);
    }
  }

  lemma {:induction false} RequestsSnoc(a: seq<Act>, m: Act)
    ensures Requests(a + [m]) == Requests(a) + if m.Request? then 1 else 0
  {
    assert (a + [m])[..|a|] == a;
  }

  lemma {:induction false} AskedCount(g: World, b: Option<Breaker.Circuit>, target: Target, k: nat)
    ensures Requests(Asked(g, b, target, k)) == k
    decreases k
  {
    if k > 0 {
      AskedCount(g, b, target, k - 1);
      RequestsSnoc(Asked(g, b, target, k - 1), Connection(target, Before(g, b, k - 1), g.env(k - 1)));
    }
  }

  lemma {:induction false} SwitchesCount(env: nat -> Try, k: nat, m: nat)
    requires forall j :: k <= j < m ==> env(j).fallback.Some?
    ensures Requests(Switches(env, k, m)) == 0
    decreases m - k
  {
    if k < m {
      SwitchesCount(env, k + 1, m);
      RequestsCat([Switch(env(k).fallback.value)], Switches(env, k + 1, m));
    }
  }

  /** How many times a call that ends at `k` connects. */
  function Connects(maxReconnect: int, retries: int, env: nat -> Try, k: nat): nat {
    if k == Rounds(maxReconnect, retries) || (k > 0 && env(k).cancelled) then k else k + 1
  }

  lemma {:induction false} ConnectsExact(maxReconnect: int, retries: int, g: World, b: Option<Breaker.Circuit>, target: Target, k: nat, z: State)
    requires EndsAt(maxReconnect, retries, g, b, target, k, z)
    ensures Requests(z.log) == Connects(maxReconnect, retries, g.env, k)
  {
    AskedCount(g, b, target, k);
    AskedCount(g, b, target, k + 1);
    if k == Rounds(maxReconnect, retries) {
      var m := Barred(g.env, k, LastAttempt(maxReconnect, retries));
      SwitchesCount(g.env, k, m);
      RequestsCat(Asked(g, b, target, k), Switches(g.env, k, m));
    }
  }

  /**
   Every call that the rate limiter lets through connects again and again, up to its number of
   reconnections, until the first attempt that is answered, and not by a reset before output,
   or that is cancelled while it waits.  If there is such an answer, what is sent is what it
   leaves, with an error at the end if it failed without output.  If there is none, exactly the
   allowed switches follow, and then the last error, if the channel takes it.
   */
  lemma {:induction false} CallExact(maxReconnect: int, retries: int, ok: nat -> bool, target: Target, b: Option<Breaker.Circuit>, env: nat -> Try) returns (k: nat)
    ensures var g, z := World(ok, target.miniMax, env), Call(maxReconnect, retries, ok, target, b, None, env);
            && EndsAt(maxReconnect, retries, g, b, target, k, z)
            && Requests(z.log) == Connects(maxReconnect, retries, env, k)
  {
    var g := World(ok, target.miniMax, env);
    k := LoopExact(maxReconnect, retries, g, b, target, 0, State(target, b, [], 0, []), None);
    ConnectsExact(maxReconnect, retries, g, b, target, k, Call(maxReconnect, retries, ok, target, b, None, env));
  }

  /** There is only one such end. */
  lemma {:induction false} OneEnd(maxReconnect: int, retries: int, g: World, b: Option<Breaker.Circuit>, target: Target, j: nat, k: nat, y: State, z: State)
    requires EndsAt(maxReconnect, retries, g, b, target, j, y) && EndsAt(maxReconnect, retries, g, b, target, k, z)
    ensures j == k
  {
  }

  /** A call that the rate limiter turns away asks nothing and says why. */
  lemma {:induction false} ThrottledExact(maxReconnect: int, retries: int, ok: nat -> bool, target: Target, b: Option<Breaker.Circuit>, e: Failure, env: nat -> Try)
    ensures var z := Call(maxReconnect, retries, ok, target, b, Some(e), env);
            z.log == [] && z.sent == (if ok(0) then [ErrorChunk(Some(e))] else []) && z.target == target && z.b == b
  {
  }

  lemma {:induction false} ReadPlain(g: World, w: Wire, t: Try)
    ensures var x := Reads(g, w, t); x.err.Some? && !x.r.emitted ==> !x.err.value.failure.interrupted
  {
    ReadExact(Reopened(g.ok, g.miniMax, w.sent, w.tries), t.body);
  }

  lemma {:induction false} LeavesPlain(g: World, w: Wire, t: Try)
    requires !Settles(g, w, t)
    ensures var v := Leaves(g, w, t); v.last.Some? && !v.last.value.interrupted
  {
    ReadPlain(g, w, t);
  }

  /**
   The error at the end of a call without output is never an interruption, so the bridge passes
   it on and does not try to recover an answer of which nothing was shown.
   */
  lemma {:induction false} PlainError(g: World, b: Option<Breaker.Circuit>, k: nat)
    requires Goes(g, b, k)
    ensures var w := Before(g, b, k); w.last.Some? ==> !w.last.value.interrupted
    ensures var x := Reads(g, Before(g, b, k), g.env(k)); x.err.Some? && !x.r.emitted ==> !x.err.value.failure.interrupted
  {
    ReadPlain(g, Before(g, b, k), g.env(k));
    if k > 0 {
      LeavesPlain(g, Before(g, b, k - 1), g.env(k - 1));
    }
  }
}
