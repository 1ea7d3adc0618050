/**
 What `SendWithRetry` does, exactly: how many requests, which pauses between them, and which end.
 */
module RetryExact {
  import opened Options
  import opened Breaker
  import opened Retry

  /** The world of one call. */
  datatype World = World(managed: bool, env: nat -> Turn)

  // ---------------------------------------------------------------- the breaker along the attempts

  /** The health manager asks the breaker before an attempt. */
  predicate Watched(g: World, t: Turn) {
    g.managed && t.unhealthy
  }

  predicate VendorRefuses(g: World, b: Option<Circuit>, t: Turn) {
    b.Some? && Watched(g, t) && !Checked(b.value, false, t.t0).allowed
  }

  /** The breaker after the health manager has asked it, if it does. */
  function Asked0(g: World, b: Option<Circuit>, t: Turn): Option<Circuit> {
    if b.Some? && Watched(g, t) then Some(Checked(b.value, false, t.t0).next) else b
  }

  predicate BreakerRefuses(g: World, b: Option<Circuit>, t: Turn) {
    b.Some? && !Checked(Asked0(g, b, t).value, false, t.t1).allowed
  }

  /** The breaker after all checks of an attempt. */
  function Asked1(g: World, b: Option<Circuit>, t: Turn): Option<Circuit> {
    if b.Some? then Some(Checked(Asked0(g, b, t).value, false, t.t1).next) else None
  }

  /** The breaker that attempt `k` finds, if all before it got a retryable reply. */
  function Found(g: World, b: Option<Circuit>, k: nat): Option<Circuit> {
    if k == 0 then b
    else
      var c := Asked1(g, Found(g, b, k - 1), g.env(k - 1));
      if c.Some? then Some(Checked(c.value, true, g.env(k - 1).t2).next) else None
  }

  /** Why attempt `k` sends no request, if it does not. */
  function Hindrance(g: World, b: Option<Circuit>, k: nat): Option<End> {
    var c, t := Found(g, b, k), g.env(k);
    if k > 0 && t.cancelled then Some(Cancelled)
    else if VendorRefuses(g, c, t) then Some(VendorOpen)
    else if BreakerRefuses(g, c, t) then Some(BreakerOpen)
    else if t.buildFails then Some(BuildFailed)
    else None
  }

  /** The breaker that an attempt that is hindered leaves behind. */
  function Left(g: World, b: Option<Circuit>, k: nat): Option<Circuit> {
    var c, t := Found(g, b, k), g.env(k);
    if k > 0 && t.cancelled then c else if VendorRefuses(g, c, t) then Asked0(g, c, t) else Asked1(g, c, t)
  }

  /** The replies that are retried: a transient failure, a timeout, too many requests, or a server error. */
  predicate Retried(r: Reply) {
    match r
    case NoReply(transient) => transient
    case Status(code, _) => code == 408 || code == 429 || 500 <= code < 600
  }

  /** The end that any other reply brings. */
  function Brings(r: Reply): End {
    match r
    case NoReply(_) => Fatal
    case Status(code, _) =>
      if code == 200 then Answered else if code == 401 || code == 403 then Denied(code) else Refused(code)
  }

  /** The breaker after such a reply: an answer, even an unauthorized one, is a success. */
  function Settled(c: Option<Circuit>, r: Reply): Option<Circuit> {
    if c.Some? && (Brings(r).Answered? || Brings(r).Denied?) then Some(Succeeded(c.value)) else c
  }

  /** Every attempt before `k` sends its request and gets a retryable reply. */
  ghost predicate Goes(g: World, b: Option<Circuit>, k: nat) {
    forall j :: 0 <= j < k ==> Hindrance(g, b, j).None? && Retried(g.env(j).reply)
  }

  // ---------------------------------------------------------------- the pauses

  /** The header of a reply, in seconds: none but a whole number that is not negative counts. */
  function Header(r: Reply): int {
    if r.Status? && r.retryAfter.Some? && r.retryAfter.value >= 0 then r.retryAfter.value else 0
  }

  /** The pause before attempt `k`: what the last reply asked for, up to 15 seconds, or else half a second doubled each time, up to the same. */
  function Pause(g: World, k: nat): int
    requires k >= 1
  {
    var asked := Wrap64(Header(g.env(k - 1).reply) * SECOND);
    if asked > 0 then AtMost(asked, 15 * SECOND) else AtMost(Pow2(k - 1) * 500 * MILLI, 15 * SECOND) + g.env(k).jitter * MILLI
  }

  /** The pauses of attempt `k` itself. */
  function Paused(g: World, k: nat): seq<int> {
    if k == 0 then [] else [Pause(g, k)]
  }

  /** The pauses of the attempts from `k` to before `m`. */
  function Pauses(g: World, k: nat, m: nat): seq<int>
    decreases m - k
  {
    if k >= m then [] else Paused(g, k) + Pauses(g, k + 1, m)
  }

  function Waits(log: seq<Entry>): seq<int> {
    if log == [] then [] else Waits(log[..|log| - 1]) + (if log[|log| - 1].Waited? then [log[|log| - 1].ns] else [])
  }

  lemma {:induction false} WaitsSnoc(log: seq<Entry>, e: Entry)
    ensures Waits(log + [e]) == Waits(log) + if e.Waited? then [e.ns] else []
  {
    assert (log + [e])[..|log|] == log;
  }

  lemma {:induction false} WaitsCat(a: seq<Entry>, b: seq<Entry>)
    ensures Waits(a + b) == Waits(a) + Waits(b)
    decreases b
  {
    if b == [] {
      assert a + b == a && Waits(a) + [] == Waits(a);
    } else {
      assert (a + b)[..|a + b| - 1] == a + b[..|b| - 1];
      WaitsCat(a, b[..|b| - 1]);
    }
  }

  // ---------------------------------------------------------------- one attempt

  /** The same requests and pauses but for `n` more requests. */
  ghost predicate Adds(log: seq<Entry>, s: Step, n: nat) {
    Posts(s.log) == Posts(log) + n && Waits(s.log) == Waits(log)
  }

  lemma {:induction false} SnocAdds(log: seq<Entry>, e: Entry)
    requires !e.Waited?
    ensures Posts(log + [e]) == Posts(log) + (if e.Posted? then 1 else 0) && Waits(log + [e]) == Waits(log)
  {
    Snoc(log, e);
    WaitsSnoc(log, e);
    assert Waits(log) + [] == Waits(log);
  }

  /** What is made of a reply. */
  ghost predicate Handles(log: seq<Entry>, b: Option<Circuit>, t: Turn, s: Step) {
    && Adds(log, s, 0)
    && if Retried(t.reply) then
         && s.Again? && s.retryAfter == Wrap64(Header(t.reply) * SECOND)
         && s.b == if b.Some? then Some(Checked(b.value, true, t.t2).next) else None
       else s.Stop? && s.end == Brings(t.reply) && s.b == Settled(b, t.reply)
  }

  lemma {:induction false} NoReplyExact(log: seq<Entry>, b: Option<Circuit>, t: Turn)
    requires t.reply.NoReply?
    ensures Handles(log, b, t, Replied(log, b, t))
  {
    assert log + [] == log;
    SnocAdds(log, Reported);
  }

  lemma {:induction false} StatusExact(log: seq<Entry>, b: Option<Circuit>, t: Turn)
    requires t.reply.Status?
    ensures Handles(log, b, t, Replied(log, b, t))
  {
    assert log + [] == log;
    SnocAdds(log, Reported);
    SnocAdds(log, Praised);
  }

  lemma {:induction false} ReplyExact(log: seq<Entry>, b: Option<Circuit>, t: Turn)
    ensures Handles(log, b, t, Replied(log, b, t))
  {
    if t.reply.NoReply? {
      NoReplyExact(log, b, t);
    } else {
      StatusExact(log, b, t);
    }
  }

  /** How an attempt goes from the checks on, by what hinders it. */
  ghost predicate Does(h: Option<End>, left: Option<Circuit>, c: Option<Circuit>, t: Turn, log: seq<Entry>, s: Step) {
    if h.Some? then s.Stop? && s.end == h.value && s.b == left && Adds(log, s, 0)
    else if Retried(t.reply) then
      && s.Again? && s.retryAfter == Wrap64(Header(t.reply) * SECOND) && Adds(log, s, 1)
      && s.b == if c.Some? then Some(Checked(c.value, true, t.t2).next) else None
    else s.Stop? && s.end == Brings(t.reply) && s.b == Settled(c, t.reply) && Adds(log, s, 1)
  }

  function Blocked(c: Option<Circuit>, t: Turn): Option<End> {
    if c.Some? && !Checked(c.value, false, t.t1).allowed then Some(BreakerOpen) else if t.buildFails then Some(BuildFailed) else None
  }

  lemma {:induction false} BareExact(log: seq<Entry>, t: Turn)
    ensures Does(Blocked(None, t), None, None, t, log, Guarded(log, None, t))
  {
    SnocAdds(log, Posted);
    ReplyExact(log + [Posted], None, t);
  }

  lemma {:induction false} GuardedExact(log: seq<Entry>, c: Circuit, t: Turn)
    ensures var o := Checked(c, false, t.t1); Does(Blocked(Some(c), t), Some(o.next), Some(o.next), t, log, Guarded(log, Some(c), t))
  {
    var o := Checked(c, false, t.t1);
    var log1 := log + [Entry.Asked(o.allowed)];
    SnocAdds(log, Entry.Asked(o.allowed));
    SnocAdds(log1, Posted);
    ReplyExact(log1 + [Posted], Some(o.next), t);
  }

  lemma {:induction false} HealthyExact(g: World, log: seq<Entry>, b: Option<Circuit>, t: Turn)
    ensures var h := if VendorRefuses(g, b, t) then Some(VendorOpen) else Blocked(Asked0(g, b, t), t);
            var left := if VendorRefuses(g, b, t) then Asked0(g, b, t) else Asked1(g, b, t);
            Does(h, left, Asked1(g, b, t), t, log, Healthy(log, b, g.managed, t))
  {
    if b.None? {
      BareExact(log, t);
    } else if Watched(g, t) {
      var o := Checked(b.value, false, t.t0);
      SnocAdds(log, HealthAsked(o.allowed));
      GuardedExact(log + [HealthAsked(o.allowed)], o.next, t);
    } else {
      GuardedExact(log, b.value, t);
    }
  }

  /** What attempt `k` does, all before it having gone on. */
  ghost predicate Tried(g: World, b: Option<Circuit>, k: nat, s: Step) {
    var h, t := Hindrance(g, b, k), g.env(k);
    && Waits(s.log) == Paused(g, k)
    && if h.Some? then s.Stop? && s.end == h.value && s.b == Left(g, b, k) && Posts(s.log) == 0
       else if Retried(t.reply) then
         s.Again? && Posts(s.log) == 1 && s.b == Found(g, b, k + 1) && s.retryAfter == Wrap64(Header(t.reply) * SECOND)
       else s.Stop? && s.end == Brings(t.reply) && Posts(s.log) == 1 && s.b == Settled(Asked1(g, Found(g, b, k), t), t.reply)
  }

  lemma {:induction false} PauseIs(g: World, k: nat)
    requires 1 <= k <= 10
    ensures BackoffDelay(k, Wrap64(Header(g.env(k - 1).reply) * SECOND), g.env(k).jitter) == Pause(g, k)
  {
    DoubledBySign(k);
  }

  /** What hinders an attempt that was not cancelled. */
  lemma {:induction false} HindranceIs(g: World, b: Option<Circuit>, k: nat)
    requires k > 0 ==> !g.env(k).cancelled
    ensures var c, t := Found(g, b, k), g.env(k);
            Hindrance(g, b, k) == if VendorRefuses(g, c, t) then Some(VendorOpen) else Blocked(Asked0(g, c, t), t)
  {
  }

  lemma {:induction false} HealthyTried(g: World, b: Option<Circuit>, k: nat, log: seq<Entry>)
    requires (k > 0 ==> !g.env(k).cancelled) && Posts(log) == 0 && Waits(log) == Paused(g, k)
    ensures Tried(g, b, k, Healthy(log, Found(g, b, k), g.managed, g.env(k)))
  {
    HindranceIs(g, b, k);
    HealthyExact(g, log, Found(g, b, k), g.env(k));
  }

  lemma {:induction false} TryExact(g: World, b: Option<Circuit>, k: nat, retryAfter: int)
    requires k <= 10 && (k > 0 ==> retryAfter == Wrap64(Header(g.env(k - 1).reply) * SECOND))
    ensures Tried(g, b, k, OneTry(k, retryAfter, Found(g, b, k), g.managed, g.env(k)))
  {
    if k == 0 {
      HealthyTried(g, b, k, []);
    } else {
      PauseIs(g, k);
      var w := Waited(Pause(g, k));
      WaitsSnoc([], w);
      Snoc([], w);
      assert [] + [w] == [w];
      if !g.env(k).cancelled {
        HealthyTried(g, b, k, [w]);
      }
    }
  }

  // ---------------------------------------------------------------- the whole call

  /**
   How the attempts from `k` on end: attempt `m` is hindered or gets a reply that is not retried,
   or there are none left.
   */
  ghost predicate EndsFrom(g: World, b: Option<Circuit>, k: nat, m: nat, r: Finish) {
    && k <= m <= 11 && Goes(g, b, m)
    && if m == 11 then
         r.end == GaveUp(Some(g.env(10).reply)) && r.b == Found(g, b, 11) && Posts(r.log) == 11 - k && Waits(r.log) == Pauses(g, k, 11)
       else
         var h, t := Hindrance(g, b, m), g.env(m);
         && Waits(r.log) == Pauses(g, k, m + 1)
         && if h.Some? then r.end == h.value && r.b == Left(g, b, m) && Posts(r.log) == m - k
            else
              && !Retried(t.reply) && r.end == Brings(t.reply) && Posts(r.log) == m - k + 1
              && r.b == Settled(Asked1(g, Found(g, b, m), t), t.reply)
  }

  lemma {:induction false} EndsMore(g: World, b: Option<Circuit>, k: nat, m: nat, s: Step, rest: Finish)
    requires k <= 10 && Tried(g, b, k, s) && s.Again? && EndsFrom(g, b, k + 1, m, rest)
    ensures EndsFrom(g, b, k, m, Then(s.log, rest))
  {
    LogCat(s.log, rest.log);
    WaitsCat(s.log, rest.log);
  }

  lemma {:induction false} EndsHere(g: World, b: Option<Circuit>, k: nat, s: Step)
    requires k <= 10 && Tried(g, b, k, s) && s.Stop? && Goes(g, b, k)
    ensures EndsFrom(g, b, k, k, Finish(s.log, s.b, s.end))
  {
    assert Pauses(g, k, k + 1) == Paused(g, k) + Pauses(g, k + 1, k + 1) == Paused(g, k);
  }

  lemma {:induction false} GoesOn(g: World, b: Option<Circuit>, k: nat)
    requires Goes(g, b, k) && Hindrance(g, b, k).None? && Retried(g.env(k).reply)
    ensures Goes(g, b, k + 1)
  {
  }

  /** What attempt `k` and those after it come to. */
  function From(g: World, b: Option<Circuit>, k: nat, retryAfter: int, last: Option<Reply>): Finish {
    Tries(k, retryAfter, last, Found(g, b, k), Trying(g.managed, g.env), Replies(g.env))
  }

  /** What attempt `k` has to go by. */
  predicate Knows(g: World, k: nat, retryAfter: int, last: Option<Reply>) {
    k > 0 ==> retryAfter == Wrap64(Header(g.env(k - 1).reply) * SECOND) && last == Some(g.env(k - 1).reply)
  }

  lemma {:induction false} NoneLeft(g: World, b: Option<Circuit>, retryAfter: int, last: Option<Reply>)
    requires Goes(g, b, 11) && Knows(g, 11, retryAfter, last)
    ensures EndsFrom(g, b, 11, 11, From(g, b, 11, retryAfter, last))
  {
  }

  lemma {:induction false} FromStep(g: World, b: Option<Circuit>, k: nat, retryAfter: int, last: Option<Reply>, s: Step)
    requires k <= 10 && s == OneTry(k, retryAfter, Found(g, b, k), g.managed, g.env(k)) && Tried(g, b, k, s)
    ensures From(g, b, k, retryAfter, last)
         == if s.Stop? then Finish(s.log, s.b, s.end) else Then(s.log, From(g, b, k + 1, s.retryAfter, Some(g.env(k).reply)))
  {
    TriesAgain(k, retryAfter, last, Found(g, b, k), Trying(g.managed, g.env), Replies(g.env), s);
  }

  lemma {:induction false} TriesExact(g: World, b: Option<Circuit>, k: nat, retryAfter: int, last: Option<Reply>) returns (m: nat)
    requires k <= 11 && Goes(g, b, k) && Knows(g, k, retryAfter, last)
    ensures EndsFrom(g, b, k, m, From(g, b, k, retryAfter, last))
    decreases 11 - k
  {
    m := k;
    if k == 11 {
      NoneLeft(g, b, retryAfter, last);
    } else {
      var s := OneTry(k, retryAfter, Found(g, b, k), g.managed, g.env(k));
      TryExact(g, b, k, retryAfter);
      FromStep(g, b, k, retryAfter, last, s);
      if s.Again? {
        GoesOn(g, b, k);
        m := TriesExact(g, b, k + 1, s.retryAfter, Some(g.env(k).reply));
        EndsMore(g, b, k, m, s, From(g, b, k + 1, s.retryAfter, Some(g.env(k).reply)));
      } else {
        EndsHere(g, b, k, s);
      }
    }
  }

  /**
   Every call sends one request after the other until the first attempt that is hindered or
   whose reply is not retried, or until there have been 11; before each but the first it pauses
   for as long as the last reply asked, up to 15 seconds, or else for half a second doubled each
   time; and it ends with what hindered it, or the verdict on the last reply, or gives up.
   */
  lemma {:induction false} SendExact(b: Option<Circuit>, managed: bool, env: nat -> Turn) returns (k: nat)
    ensures EndsFrom(World(managed, env), b, 0, k, Send(b, managed, env))
  {
    k := TriesExact(World(managed, env), b, 0, 0, None);
  }

  /** There is only one such end. */
  lemma {:induction false} OneEnd(g: World, b: Option<Circuit>, j: nat, k: nat, q: Finish, r: Finish)
    requires EndsFrom(g, b, 0, j, q) && EndsFrom(g, b, 0, k, r)
    ensures j == k
  {
  }

  /** Without a breaker, nothing but a cancellation or a request that cannot be built hinders an attempt. */
  lemma {:induction false} FreeToSend(g: World, k: nat)
    ensures Found(g, None, k) == None
    ensures Hindrance(g, None, k).None? <==> !(k > 0 && g.env(k).cancelled) && !g.env(k).buildFails
    decreases k
  {
    if k > 0 {
      FreeToSend(g, k - 1);
    }
  }

  /** What a reply asks for is granted, up to 15 seconds, for every header that does not overflow. */
  lemma {:induction false} HeaderGranted(g: World, k: nat, secs: nat)
    requires k >= 1 && g.env(k - 1).reply.Status? && g.env(k - 1).reply.retryAfter == Some(secs) && 1 <= secs <= 9_223_372_036
    ensures Pause(g, k) == AtMost(secs, 15) * SECOND
  {
    WrapUnique(0, secs * SECOND);
  }
}
