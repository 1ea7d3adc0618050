/**
 What becomes of a published chunk, over whole runs of the event bus: which calls are accepted,
 in which order, and why the others are not.
 */
module EventBusPublish {
  import opened Options
  import opened Protocol
  import opened EventBus
  import opened EventBusLive

  // ---------------------------------------------------------------- the history of a run

  /** The call with which `t` came in. */
  function CalledWith(ms: seq<Move>, t: nat): Option<Pc> {
    if ms == [] then None
    else if CalledWith(ms[..|ms| - 1], t).Some? then CalledWith(ms[..|ms| - 1], t)
    else
      var m := ms[|ms| - 1];
      if m.Call? && m.t == t then Some(m.pc) else None
  }

  predicate Publishes(ms: seq<Move>, t: nat) {
    CalledWith(ms, t).Some? && CalledWith(ms, t).value.PubStart?
  }

  /** The chunks of the calls that sent, in the order in which they sent. */
  function SentChunks(ms: seq<Move>): seq<Chunk> {
    if ms == [] then []
    else
      var p, m := ms[..|ms| - 1], ms[|ms| - 1];
      SentChunks(p) + (if m.PubSend? && Publishes(p, m.t) then [CalledWith(p, m.t).value.chunk] else [])
  }

  /** Move `i` of the run is `m`, made in the state `s`. */
  ghost predicate Happens(cap: nat, ms: seq<Move>, i: nat, m: Move, s: Bus) {
    i < |ms| && ms[i] == m && Legal(Start(cap), ms[..i]) && After(Start(cap), ms[..i]) == s
  }

  /** `t` found the bus stopped. */
  ghost predicate TurnedAway(cap: nat, ms: seq<Move>, t: nat) {
    exists i, s :: Happens(cap, ms, i, PubCheck(t), s) && s.stopped
  }

  /** The channel holds as many chunks as it can; one without a buffer takes a chunk only when `run` waits for it. */
  predicate Full(cap: nat, s: Bus) {
    if cap > 0 then |s.queue| >= cap else s.queue != [] || s.fan != Idle
  }

  /** `t` found the channel full, or its context was done. */
  ghost predicate Skipped(cap: nat, ms: seq<Move>, t: nat, ctx: bool) {
    exists i, s :: Happens(cap, ms, i, PubSkip(t), s) && (ctx || Full(cap, s))
  }

  // ---------------------------------------------------------------- runs, from behind

  lemma {:induction false} LastMove(s: Bus, ms: seq<Move>)
    requires Legal(s, ms) && ms != []
    ensures var p, m := ms[..|ms| - 1], ms[|ms| - 1];
            Legal(s, p) && Enabled(After(s, p), m) && After(s, ms) == Apply(After(s, p), m)
    decreases ms
  {
    if |ms| > 1 {
      var y := Apply(s, ms[0]);
      LastMove(y, ms[1..]);
      assert ms[..|ms| - 1][1..] == ms[1..][..|ms| - 2] && ms[..|ms| - 1][0] == ms[0];
    } else {
      assert ms[1..] == [] && ms[..0] == [];
    }
  }

  lemma {:induction false} HappensStill(cap: nat, p: seq<Move>, m: Move, i: nat, n: Move, s: Bus)
    requires Happens(cap, p, i, n, s)
    ensures Happens(cap, p + [m], i, n, s)
  {
    assert (p + [m])[..i] == p[..i];
  }

  lemma {:induction false} HappensLast(cap: nat, p: seq<Move>, m: Move)
    requires Legal(Start(cap), p)
    ensures Happens(cap, p + [m], |p|, m, After(Start(cap), p))
  {
    assert (p + [m])[..|p|] == p;
  }

  // ---------------------------------------------------------------- what each caller stands for

  /** What became of `t`: sent, turned away, or skipped. */
  ghost predicate Decided(cap: nat, ms: seq<Move>, t: nat) {
    Publishes(ms, t) && (PubSend(t) in ms || TurnedAway(cap, ms, t) || Skipped(cap, ms, t, CalledWith(ms, t).value.ctx))
  }

  predicate Undecided(pc: Pc) {
    pc.PubStart? || pc.PubHeld? || pc.PubChecked?
  }

  /** Caller `t`, at `pc`, is where its history says. */
  ghost predicate Stands(cap: nat, ms: seq<Move>, t: nat, pc: Pc) {
    && CalledWith(ms, t).Some?
    && (Undecided(pc) ==> CalledWith(ms, t) == Some(PubStart(pc.chunk, pc.ctx)) && PubSend(t) !in ms)
    && (pc.PubLeave? || (pc.Returned? && Publishes(ms, t)) ==> Decided(cap, ms, t))
    && (!Undecided(pc) && !pc.PubLeave? && !pc.Returned? ==> !Publishes(ms, t))
  }

  ghost predicate Tracked(cap: nat, ms: seq<Move>, s: Bus) {
    && (forall t :: t in s.callers ==> Stands(cap, ms, t, s.callers[t]))
    && (forall t :: t !in s.callers ==> CalledWith(ms, t).None? && PubSend(t) !in ms)
  }

  lemma {:induction false} CalledStill(p: seq<Move>, m: Move, t: nat)
    ensures CalledWith(p + [m], t) == if CalledWith(p, t).Some? then CalledWith(p, t) else if m.Call? && m.t == t then Some(m.pc) else None
    ensures PubSend(t) in p + [m] <==> PubSend(t) in p || m == PubSend(t)
  {
    assert (p + [m])[..|p|] == p;
  }

  lemma {:induction false} DecidedStill(cap: nat, p: seq<Move>, m: Move, t: nat)
    requires Decided(cap, p, t)
    ensures Decided(cap, p + [m], t)
  {
    CalledStill(p, m, t);
    if TurnedAway(cap, p, t) {
      var i, s :| Happens(cap, p, i, PubCheck(t), s) && s.stopped;
      HappensStill(cap, p, m, i, PubCheck(t), s);
    } else if PubSend(t) !in p {
      var i, s :| Happens(cap, p, i, PubSkip(t), s) && (CalledWith(p, t).value.ctx || Full(cap, s));
      HappensStill(cap, p, m, i, PubSkip(t), s);
    }
  }

  /** A caller that does not move stands where it stood. */
  lemma {:induction false} StandsStill(cap: nat, p: seq<Move>, m: Move, t: nat, pc: Pc)
    requires Stands(cap, p, t, pc) && m != PubSend(t)
    ensures Stands(cap, p + [m], t, pc)
  {
    CalledStill(p, m, t);
    if pc.PubLeave? || (pc.Returned? && Publishes(p, t)) {
      DecidedStill(cap, p, m, t);
    }
  }

  // ---------------------------------------------------------------- one move

  lemma {:induction false} Moved(cap: nat, p: seq<Move>, m: Move, s: Bus, z: Bus, t: nat, pc: Pc)
    requires Tracked(cap, p, s) && z.callers == s.callers[t := pc] && Stands(cap, p + [m], t, pc)
    requires m.Call? || m.PubSend? ==> m.t == t
    ensures Tracked(cap, p + [m], z)
  {
    forall u | u in z.callers
      ensures Stands(cap, p + [m], u, z.callers[u])
    {
      if u != t {
        StandsStill(cap, p, m, u, s.callers[u]);
      }
    }
    forall u | u !in z.callers
      ensures CalledWith(p + [m], u).None? && PubSend(u) !in p + [m]
    {
      CalledStill(p, m, u);
    }
  }

  lemma {:induction false} Unmoved(cap: nat, p: seq<Move>, m: Move, s: Bus, z: Bus)
    requires Tracked(cap, p, s) && z.callers == s.callers && !m.Call? && !m.PubSend?
    ensures Tracked(cap, p + [m], z)
  {
    forall u | u in z.callers
      ensures Stands(cap, p + [m], u, z.callers[u])
    {
      StandsStill(cap, p, m, u, s.callers[u]);
    }
    forall u | u !in z.callers
      ensures CalledWith(p + [m], u).None? && PubSend(u) !in p + [m]
    {
      CalledStill(p, m, u);
    }
  }

  /** The run `p` leads to `s`, where the move `m` is possible. */
  ghost predicate Next(cap: nat, p: seq<Move>, s: Bus, m: Move) {
    Legal(Start(cap), p) && After(Start(cap), p) == s && Inv(s) && Tracked(cap, p, s) && Bounded(cap, s) && Enabled(s, m)
  }

  lemma {:induction false} CallTracked(cap: nat, p: seq<Move>, s: Bus, m: Move)
    requires Next(cap, p, s, m) && m.Call?
    ensures Tracked(cap, p + [m], Apply(s, m))
  {
    CalledStill(p, m, m.t);
    Moved(cap, p, m, s, Apply(s, m), m.t, m.pc);
  }

  lemma {:induction false} CheckTracked(cap: nat, p: seq<Move>, s: Bus, t: nat)
    requires Next(cap, p, s, PubCheck(t))
    ensures Tracked(cap, p + [PubCheck(t)], Apply(s, PubCheck(t)))
  {
    var m, z := PubCheck(t), Apply(s, PubCheck(t));
    CalledStill(p, m, t);
    HappensLast(cap, p, m);
    if s.stopped {
      assert TurnedAway(cap, p + [m], t);
    }
    Moved(cap, p, m, s, z, t, z.callers[t]);
  }

  lemma {:induction false} SendTracked(cap: nat, p: seq<Move>, s: Bus, t: nat)
    requires Next(cap, p, s, PubSend(t))
    ensures Tracked(cap, p + [PubSend(t)], Apply(s, PubSend(t)))
  {
    CalledStill(p, PubSend(t), t);
    Moved(cap, p, PubSend(t), s, Apply(s, PubSend(t)), t, PubLeave);
  }

  lemma {:induction false} SkipTracked(cap: nat, p: seq<Move>, s: Bus, t: nat)
    requires Next(cap, p, s, PubSkip(t))
    ensures Tracked(cap, p + [PubSkip(t)], Apply(s, PubSkip(t)))
  {
    var m := PubSkip(t);
    CalledStill(p, m, t);
    HappensLast(cap, p, m);
    assert Skipped(cap, p + [m], t, CalledWith(p, t).value.ctx);
    Moved(cap, p, m, s, Apply(s, m), t, PubLeave);
  }

  lemma {:induction false} LockTracked(cap: nat, p: seq<Move>, s: Bus, t: nat)
    requires Next(cap, p, s, PubRLock(t))
    ensures Tracked(cap, p + [PubRLock(t)], Apply(s, PubRLock(t)))
  {
    var pc := s.callers[t];
    CalledStill(p, PubRLock(t), t);
    Moved(cap, p, PubRLock(t), s, Apply(s, PubRLock(t)), t, PubHeld(pc.chunk, pc.ctx));
  }

  lemma {:induction false} UnlockTracked(cap: nat, p: seq<Move>, s: Bus, t: nat)
    requires Next(cap, p, s, PubRUnlock(t))
    ensures Tracked(cap, p + [PubRUnlock(t)], Apply(s, PubRUnlock(t)))
  {
    CalledStill(p, PubRUnlock(t), t);
    DecidedStill(cap, p, PubRUnlock(t), t);
    Moved(cap, p, PubRUnlock(t), s, Apply(s, PubRUnlock(t)), t, Returned);
  }

  lemma {:induction false} PublishTracked(cap: nat, p: seq<Move>, s: Bus, m: Move)
    requires Next(cap, p, s, m) && Publishing(m)
    ensures Tracked(cap, p + [m], Apply(s, m))
  {
    if m.Call? {
      CallTracked(cap, p, s, m);
    } else if m.PubCheck? {
      CheckTracked(cap, p, s, m.t);
    } else if m.PubSend? {
      SendTracked(cap, p, s, m.t);
    } else if m.PubSkip? {
      SkipTracked(cap, p, s, m.t);
    } else if m.PubRLock? {
      LockTracked(cap, p, s, m.t);
    } else {
      UnlockTracked(cap, p, s, m.t);
    }
  }

  /** Subscribers and stoppers. */
  predicate Outside(pc: Pc) {
    !Undecided(pc) && !pc.PubLeave? && !pc.Returned?
  }

  /** What a move of theirs does to the callers. */
  ghost predicate OutsiderMoves(s: Bus, z: Bus, t: nat) {
    t in s.callers && Outside(s.callers[t]) && t in z.callers && !Undecided(z.callers[t]) && !z.callers[t].PubLeave?
    && z.callers == s.callers[t := z.callers[t]]
  }

  lemma {:induction false} SubscriberMoves(s: Bus, m: Move)
    requires CanSubscribe(s, m)
    ensures OutsiderMoves(s, Subscribe(s, m), m.t)
  {
  }

  lemma {:induction false} CloserMoves(s: Bus, m: Move)
    requires CanClose(s, m)
    ensures OutsiderMoves(s, Close(s, m), m.t)
  {
  }

  lemma {:induction false} StopperMoves(s: Bus, m: Move)
    requires CanStop(s, m)
    ensures OutsiderMoves(s, Stop(s, m), m.t)
  {
  }

  lemma {:induction false} OutsiderTracked(cap: nat, p: seq<Move>, m: Move, s: Bus, z: Bus, t: nat)
    requires Tracked(cap, p, s) && OutsiderMoves(s, z, t) && !m.Call? && !m.PubSend?
    ensures Tracked(cap, p + [m], z)
  {
    CalledStill(p, m, t);
    Moved(cap, p, m, s, z, t, z.callers[t]);
  }

  lemma {:induction false} FanMoves(s: Bus, m: Move)
    requires CanFanOut(s, m)
    ensures FanOut(s, m).callers == s.callers
  {
  }

  lemma {:induction false} DeliveryMoves(s: Bus, m: Move)
    requires CanDeliver(s, m)
    ensures Deliver(s, m).callers == s.callers
  {
  }

  lemma {:induction false} MoveTracked(cap: nat, p: seq<Move>, s: Bus, m: Move)
    requires Next(cap, p, s, m)
    ensures Tracked(cap, p + [m], Apply(s, m))
  {
    if Publishing(m) {
      PublishTracked(cap, p, s, m);
    } else if Subscribing(m) {
      SubscriberMoves(s, m);
      OutsiderTracked(cap, p, m, s, Apply(s, m), m.t);
    } else if Closing(m) {
      CloserMoves(s, m);
      OutsiderTracked(cap, p, m, s, Apply(s, m), m.t);
    } else if Stopping(m) {
      StopperMoves(s, m);
      OutsiderTracked(cap, p, m, s, Apply(s, m), m.t);
    } else if Fanning(m) {
      FanMoves(s, m);
      Unmoved(cap, p, m, s, Apply(s, m));
    } else {
      DeliveryMoves(s, m);
      Unmoved(cap, p, m, s, Apply(s, m));
    }
  }

  lemma {:induction false} PublishAccepts(s: Bus, m: Move)
    requires StopInv(s) && CanPublish(s, m)
    ensures Publish(s, m).accepted == s.accepted + if m.PubSend? then [s.callers[m.t].chunk] else []
  {
  }

  lemma {:induction false} MoveAccepts(s: Bus, m: Move)
    requires Inv(s) && Enabled(s, m)
    ensures Apply(s, m).accepted == s.accepted + if m.PubSend? then [s.callers[m.t].chunk] else []
  {
    if Publishing(m) {
      PublishAccepts(s, m);
    } else if Fanning(m) {
      QueueFanning(s, m);
    } else {
      QueueRest(s, m);
    }
  }

  lemma {:induction false} PublishBounded(cap: nat, s: Bus, m: Move)
    requires Bounded(cap, s) && StopInv(s) && CanPublish(s, m)
    ensures Bounded(cap, Publish(s, m))
  {
  }

  lemma {:induction false} FanBounded(cap: nat, s: Bus, m: Move)
    requires Bounded(cap, s) && CanFanOut(s, m)
    ensures Bounded(cap, FanOut(s, m))
  {
  }

  lemma {:induction false} MoveBounded(cap: nat, s: Bus, m: Move)
    requires Bounded(cap, s) && Inv(s) && Enabled(s, m)
    ensures Bounded(cap, Apply(s, m))
  {
    if Publishing(m) {
      PublishBounded(cap, s, m);
    } else if Fanning(m) {
      FanBounded(cap, s, m);
    } else {
      QueueRest(s, m);
      CapRest(s, m);
    }
  }

  lemma {:induction false} CapRest(s: Bus, m: Move)
    requires Enabled(s, m) && !Publishing(m) && !Fanning(m)
    ensures Apply(s, m).cap == s.cap
  {
    if Subscribing(m) {
      CapSubscribing(s, m);
    } else if Closing(m) {
      CapClosing(s, m);
    } else if Stopping(m) {
      CapStopping(s, m);
    }
  }

  lemma {:induction false} CapSubscribing(s: Bus, m: Move)
    requires CanSubscribe(s, m)
    ensures Subscribe(s, m).cap == s.cap
  {
  }

  lemma {:induction false} CapClosing(s: Bus, m: Move)
    requires CanClose(s, m)
    ensures Close(s, m).cap == s.cap
  {
  }

  lemma {:induction false} CapStopping(s: Bus, m: Move)
    requires CanStop(s, m)
    ensures Stop(s, m).cap == s.cap
  {
  }

  lemma {:induction false} SentStep(cap: nat, p: seq<Move>, s: Bus, m: Move)
    requires Next(cap, p, s, m) && s.accepted == SentChunks(p)
    ensures Apply(s, m).accepted == SentChunks(p + [m])
  {
    MoveAccepts(s, m);
    assert (p + [m])[..|p|] == p;
    if m.PubSend? {
      assert Stands(cap, p, m.t, s.callers[m.t]);
    }
  }

  /** The channel keeps its capacity. */
  predicate Bounded(cap: nat, z: Bus) {
    z.cap == cap && |z.queue| <= if cap > 0 then cap else 1
  }

  ghost predicate Accounted(cap: nat, ms: seq<Move>, z: Bus) {
    Inv(z) && Tracked(cap, ms, z) && z.accepted == SentChunks(ms) && Bounded(cap, z)
  }

  lemma {:induction false} AccountStep(cap: nat, p: seq<Move>, s: Bus, m: Move)
    requires Legal(Start(cap), p) && After(Start(cap), p) == s && Accounted(cap, p, s) && Enabled(s, m)
    ensures Accounted(cap, p + [m], Apply(s, m))
  {
    MoveTracked(cap, p, s, m);
    SentStep(cap, p, s, m);
    MoveBounded(cap, s, m);
    InvStep(s, m);
  }

  lemma {:induction false} RunTracked(cap: nat, ms: seq<Move>)
    requires Legal(Start(cap), ms)
    ensures Accounted(cap, ms, After(Start(cap), ms))
    decreases ms
  {
    if ms != [] {
      var p, m := ms[..|ms| - 1], ms[|ms| - 1];
      assert p + [m] == ms;
      LastMove(Start(cap), ms);
      RunTracked(cap, p);
      AccountStep(cap, p, After(Start(cap), p), m);
    }
  }

  // ---------------------------------------------------------------- the theorems

  /**
   In every run, what has been accepted is the chunks of the calls that sent, in that order, and
   the channel never holds more than its capacity.
   */
  lemma {:induction false} AcceptedIsSent(cap: nat, ms: seq<Move>)
    requires Legal(Start(cap), ms)
    ensures After(Start(cap), ms).accepted == SentChunks(ms)
    ensures |After(Start(cap), ms).queue| <= if cap > 0 then cap else 1
  {
    RunTracked(cap, ms);
  }

  /**
   In every run, a publishing call that has returned sent its chunk, unless it found the bus
   stopped, or the channel full, or its context done.
   */
  lemma {:induction false} PublishDecided(cap: nat, ms: seq<Move>, t: nat)
    requires Legal(Start(cap), ms) && Publishes(ms, t) && At(After(Start(cap), ms), t, Returned)
    ensures PubSend(t) in ms || TurnedAway(cap, ms, t) || Skipped(cap, ms, t, CalledWith(ms, t).value.ctx)
  {
    RunTracked(cap, ms);
    assert Stands(cap, ms, t, Returned);
  }

  lemma {:induction false} NotSentBefore(cap: nat, p: seq<Move>, t: nat)
    requires Legal(Start(cap), p) && Enabled(After(Start(cap), p), PubSend(t))
    ensures PubSend(t) !in p
  {
    RunTracked(cap, p);
    assert Stands(cap, p, t, After(Start(cap), p).callers[t]);
  }

  /** No call sends twice. */
  lemma {:induction false} SendsOnce(cap: nat, ms: seq<Move>, i: nat, j: nat, t: nat)
    requires Legal(Start(cap), ms) && i < j < |ms| && ms[i] == PubSend(t)
    ensures ms[j] != PubSend(t)
    decreases ms
  {
    var p, m := ms[..|ms| - 1], ms[|ms| - 1];
    LastMove(Start(cap), ms);
    assert p[i] == PubSend(t);
    if j < |ms| - 1 {
      SendsOnce(cap, p, i, j, t);
    } else if m == PubSend(t) {
      NotSentBefore(cap, p, t);
    }
  }

  // ---------------------------------------------------------------- a chunk that arrives

  /** A running bus with room accepts: nothing keeps a publisher from sending. */
  lemma {:induction false} RoomAccepts(s: Bus, t: nat)
    requires t in s.callers && s.callers[t].PubStart? && s.writer.None? && !s.stopped && !s.pubClosed && !Full(s.cap, s)
    ensures var ms := [PubRLock(t), PubCheck(t), PubSend(t)];
            Legal(s, ms) && After(s, ms).accepted == s.accepted + [s.callers[t].chunk] && At(After(s, ms), t, PubLeave)
  {
    var y := Apply(s, PubRLock(t));
    var x := Apply(y, PubCheck(t));
    RunOne(x, PubSend(t));
    RunCons(y, PubCheck(t), [PubSend(t)]);
    RunCons(s, PubRLock(t), [PubCheck(t)] + [PubSend(t)]);
    assert [PubRLock(t)] + ([PubCheck(t)] + [PubSend(t)]) == [PubRLock(t), PubCheck(t), PubSend(t)];
  }

  /** The bus with one subscriber, idle. */
  function Ready(cap: nat, accepted: seq<Chunk>, queue: seq<nat>, callers: map<nat, Pc>): Bus {
    Bus(cap, accepted, 0, queue, false, false, Fresh, Idle, map["x" := 0],
        map[0 := Sub("x", 0, [], false, false, [], {})], 1, callers, None, {}, false)
  }

  lemma {:induction false} OneSubscribes(cap: nat) returns (ms: seq<Move>, z: Bus)
    ensures Reaches(cap, ms, z) && z == Ready(cap, [], [], map[0 := Returned])
  {
    ms, z := [], Start(cap);
    ms, z := Make(cap, ms, z, Call(0, SubStart("x")));
    ms, z := Make(cap, ms, z, SubLock(0));
    ms, z := Make(cap, ms, z, SubAdd(0));
    ms, z := Make(cap, ms, z, SubUnlock(0));
    assert z.callers == map[0 := Returned];
  }

  lemma {:induction false} OneComesIn(cap: nat, ch: Chunk) returns (ms: seq<Move>, z: Bus)
    ensures Reaches(cap, ms, z) && z == Ready(cap, [], [], map[0 := Returned, 1 := PubHeld(ch, false)]).(readers := {1})
  {
    ms, z := OneSubscribes(cap);
    ms, z := Make(cap, ms, z, Call(1, PubStart(ch, false)));
    ms, z := Make(cap, ms, z, PubRLock(1));
    assert z.callers == map[0 := Returned, 1 := PubHeld(ch, false)] && z.readers == {1};
  }

  lemma {:induction false} OnePublishes(cap: nat, ch: Chunk) returns (ms: seq<Move>, z: Bus)
    ensures Reaches(cap, ms, z) && z == Ready(cap, [ch], [0], map[0 := Returned, 1 := Returned])
  {
    ms, z := OneComesIn(cap, ch);
    ms, z := Make(cap, ms, z, PubCheck(1));
    ms, z := Make(cap, ms, z, PubSend(1));
    ms, z := Make(cap, ms, z, PubRUnlock(1));
    assert z.callers == map[0 := Returned, 1 := Returned] && z.readers == {};
  }

  lemma {:induction false} OneFansOut(cap: nat, ch: Chunk) returns (ms: seq<Move>, z: Bus)
    ensures Reaches(cap, ms, z) && z.accepted == [ch] && 0 in z.subs && z.subs[0] == Sub("x", 0, [0], false, false, [], {})
  {
    ms, z := OnePublishes(cap, ch);
    ms, z := Make(cap, ms, z, RunRecv);
    assert "x" in z.names && z.names["x"] == 0;
    ms, z := Make(cap, ms, z, RunRLock);
    ms, z := Make(cap, ms, z, RunSend(0));
  }

  /** For every capacity and every chunk, a run in which it is published, accepted and handled. */
  lemma {:induction false} ChunkArrives(cap: nat, ch: Chunk) returns (ms: seq<Move>, z: Bus)
    ensures Reaches(cap, ms, z) && z.accepted == [ch] && 0 in z.subs && z.subs[0].handled == [0]
  {
    ms, z := OneFansOut(cap, ch);
    ms, z := Make(cap, ms, z, DispRecv(0));
  }
}
