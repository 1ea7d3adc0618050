/**
 When a call of Stop on the event bus returns.
 */
module EventBusLive {
  import opened Options
  import opened EventBus

  // ---------------------------------------------------------------- draining the dispatchers

  predicate Dispatching(m: Move) {
    m.DispRecv? || m.DispExit?
  }

  lemma {:induction false} DispatchOnly(s: Bus, m: Move)
    requires CanDeliver(s, m) && Dispatching(m)
    ensures Deliver(s, m) == s.(subs := s.subs[m.id := Delivered(s, m)])
  {
  }

  ghost function Unfinished(s: Bus): set<nat> {
    set id | id in s.subs && !s.subs[id].exited
  }

  /** A Stop call that waits for the dispatchers, with no subscriber registered. */
  ghost predicate Draining(s: Bus, t: nat) {
    Inv(s) && At(s, t, WaitAll) && s.names == map[]
  }

  lemma {:induction false} DrainStep(s: Bus, t: nat, id: nat) returns (m: Move)
    requires Draining(s, t) && id in Unfinished(s)
    ensures Dispatching(m) && Enabled(s, m) && Draining(Apply(s, m), t)
    ensures if m.DispExit? then Unfinished(Apply(s, m)) == Unfinished(s) - {id}
            else Unfinished(Apply(s, m)) == Unfinished(s) && |Apply(s, m).subs[id].queue| < |s.subs[id].queue|
  {
    assert s.subs[id].closed;
    m := if s.subs[id].queue == [] then DispExit(id) else DispRecv(id);
    InvStep(s, m);
    DispatchOnly(s, m);
  }

  /** A run of dispatcher moves that leaves none of them at work. */
  ghost predicate Drains(s: Bus, t: nat, ms: seq<Move>) {
    && Legal(s, ms) && (forall i :: 0 <= i < |ms| ==> Dispatching(ms[i]))
    && Draining(After(s, ms), t) && Unfinished(After(s, ms)) == {}
  }

  lemma {:induction false} DrainsMore(s: Bus, t: nat, m: Move, rest: seq<Move>)
    requires Enabled(s, m) && Dispatching(m) && Drains(Apply(s, m), t, rest)
    ensures Drains(s, t, [m] + rest)
  {
    assert ([m] + rest)[1..] == rest;
  }

  lemma {:induction false} DrainFrom(s: Bus, t: nat, id: nat) returns (ms: seq<Move>)
    requires Draining(s, t) && id in Unfinished(s)
    ensures Drains(s, t, ms)
    decreases Unfinished(s), |s.subs[id].queue|
  {
    var m := DrainStep(s, t, id);
    var rest := [];
    if m.DispRecv? {
      rest := DrainFrom(Apply(s, m), t, id);
    } else if Unfinished(Apply(s, m)) != {} {
      var next :| next in Unfinished(Apply(s, m));
      rest := DrainFrom(Apply(s, m), t, next);
    }
    DrainsMore(s, t, m, rest);
    ms := [m] + rest;
  }

  lemma {:induction false} DrainAll(s: Bus, t: nat) returns (ms: seq<Move>)
    requires Draining(s, t)
    ensures Legal(s, ms) && (forall i :: 0 <= i < |ms| ==> Dispatching(ms[i])) && Enabled(After(s, ms), StopReturn(t))
  {
    ms := [];
    if Unfinished(s) != {} {
      var id :| id in Unfinished(s);
      ms := DrainFrom(s, t, id);
    }
    Returnable(After(s, ms), t);
  }

  lemma {:induction false} Returnable(s: Bus, t: nat)
    requires Inv(s) && At(s, t, WaitAll) && Unfinished(s) == {}
    ensures Enabled(s, StopReturn(t))
  {
    forall id | id in s.subs ensures s.subs[id].exited {
      assert id !in Unfinished(s);
    }
    assert PastRun(s.callers[t]);
  }

  // ---------------------------------------------------------------- runs without new calls

  predicate Tame(m: Move) {
    !m.Call? && !m.StopReturn?
  }

  predicate NoCalls(ms: seq<Move>) {
    forall i :: 0 <= i < |ms| ==> !ms[i].Call?
  }

  /** A run without new calls, in which no Stop call returns, leads from `s` to `z`. */
  ghost predicate Leads(s: Bus, ms: seq<Move>, z: Bus) {
    Legal(s, ms) && After(s, ms) == z && Inv(z) && forall i :: 0 <= i < |ms| ==> Tame(ms[i])
  }

  lemma {:induction false} RunCons(s: Bus, m: Move, ms: seq<Move>)
    requires Enabled(s, m) && Legal(Apply(s, m), ms)
    ensures Legal(s, [m] + ms) && After(s, [m] + ms) == After(Apply(s, m), ms)
  {
    assert ([m] + ms)[0] == m && ([m] + ms)[1..] == ms;
  }

  lemma {:induction false} RunCat(s: Bus, a: seq<Move>, b: seq<Move>)
    requires Legal(s, a) && Legal(After(s, a), b)
    ensures Legal(s, a + b) && After(s, a + b) == After(After(s, a), b)
    decreases a
  {
    if a == [] {
      assert a + b == b;
    } else {
      RunCat(Apply(s, a[0]), a[1..], b);
      RunCons(s, a[0], a[1..] + b);
      assert [a[0]] + (a[1..] + b) == a + b;
    }
  }

  lemma {:induction false} RunOne(s: Bus, m: Move)
    requires Enabled(s, m)
    ensures Legal(s, [m]) && After(s, [m]) == Apply(s, m)
  {
    assert [m][0] == m && [m][1..] == [];
    assert Legal(Apply(s, m), []);
  }

  lemma {:induction false} LeadsCat(s: Bus, a: seq<Move>, y: Bus, b: seq<Move>, z: Bus)
    requires Leads(s, a, y) && Leads(y, b, z)
    ensures Leads(s, a + b, z)
  {
    RunCat(s, a, b);
  }

  lemma {:induction false} LeadsNone(s: Bus)
    requires Inv(s)
    ensures Leads(s, [], s)
  {
  }

  /** One more move. */
  lemma {:induction false} Take(s: Bus, a: seq<Move>, y: Bus, m: Move) returns (ms: seq<Move>, z: Bus)
    requires Leads(s, a, y) && Enabled(y, m) && Tame(m)
    ensures z == Apply(y, m) && Leads(s, ms, z)
  {
    z := Apply(y, m);
    ms := a + [m];
    InvStep(y, m);
    RunOne(y, m);
    LeadsCat(s, a, y, [m], z);
  }

  // ---------------------------------------------------------------- letting go of the lock

  /** Whoever does not hold the lock for reading is left where it is, and so is all else of interest. */
  ghost predicate ReadersOnly(s: Bus, z: Bus) {
    && z.writer == s.writer && z.fan == s.fan && z.once == s.once && z.pubClosed == s.pubClosed && z.names == s.names
    && forall p :: p in s.callers && !HoldsRead(s.callers[p]) ==> p in z.callers && z.callers[p] == s.callers[p]
  }

  lemma {:induction false} ReaderLeaves(s: Bus, r: nat) returns (ms: seq<Move>, z: Bus)
    requires Inv(s) && r in s.readers && s.callers[r].PubLeave?
    ensures Leads(s, ms, z) && z.readers == s.readers - {r} && ReadersOnly(s, z)
  {
    LeadsNone(s);
    ms, z := Take(s, [], s, PubRUnlock(r));
  }

  function Offer(s: Bus, r: nat): Move {
    if Room(s) then PubSend(r) else PubSkip(r)
  }

  lemma {:induction false} OfferMade(s: Bus, r: nat)
    requires CanPublish(s, Offer(s, r)) && !s.pubClosed
    ensures var z := Publish(s, Offer(s, r)); z.readers == s.readers && ReadersOnly(s, z) && At(z, r, PubLeave)
  {
  }

  lemma {:induction false} ReaderSends(s: Bus, r: nat) returns (ms: seq<Move>, z: Bus)
    requires Inv(s) && r in s.readers && s.callers[r].PubChecked?
    ensures Leads(s, ms, z) && z.readers == s.readers && ReadersOnly(s, z) && At(z, r, PubLeave)
  {
    LeadsNone(s);
    OfferMade(s, r);
    ms, z := Take(s, [], s, Offer(s, r));
  }

  lemma {:induction false} ReaderChecks(s: Bus, r: nat) returns (ms: seq<Move>, z: Bus)
    requires Inv(s) && r in s.readers && s.callers[r].PubHeld?
    ensures Leads(s, ms, z) && z.readers == s.readers && ReadersOnly(s, z)
    ensures r in z.callers && (z.callers[r].PubChecked? || z.callers[r].PubLeave?)
  {
    LeadsNone(s);
    ms, z := Take(s, [], s, PubCheck(r));
  }

  lemma {:induction false} ReadersOnlyTrans(s: Bus, y: Bus, z: Bus)
    requires Inv(s) && Inv(y) && ReadersOnly(s, y) && ReadersOnly(y, z) && y.readers <= s.readers
    ensures ReadersOnly(s, z)
  {
    forall p | p in s.callers && !HoldsRead(s.callers[p])
      ensures p in z.callers && z.callers[p] == s.callers[p]
    {
      assert p in y.callers && y.callers[p] == s.callers[p];
    }
  }

  lemma {:induction false} FinishReader(s: Bus, r: nat) returns (ms: seq<Move>, z: Bus)
    requires Inv(s) && r in s.readers
    ensures Leads(s, ms, z) && z.readers == s.readers - {r} && ReadersOnly(s, z)
  {
    LeadsNone(s);
    var a, y := [], s;
    if s.callers[r].PubHeld? {
      a, y := ReaderChecks(s, r);
    }
    if y.callers[r].PubChecked? {
      var b, x := ReaderSends(y, r);
      LeadsCat(s, a, y, b, x);
      ReadersOnlyTrans(s, y, x);
      a, y := a + b, x;
    }
    var c, w := ReaderLeaves(y, r);
    LeadsCat(s, a, y, c, w);
    ReadersOnlyTrans(s, y, w);
    ms, z := a + c, w;
  }

  lemma {:induction false} ClearReaders(s: Bus) returns (ms: seq<Move>, z: Bus)
    requires Inv(s)
    ensures Leads(s, ms, z) && z.readers == {} && ReadersOnly(s, z)
    decreases s.readers
  {
    if s.readers == {} {
      LeadsNone(s);
      ms, z := [], s;
    } else {
      var r :| r in s.readers;
      var a, y := FinishReader(s, r);
      var b, x := ClearReaders(y);
      LeadsCat(s, a, y, b, x);
      ReadersOnlyTrans(s, y, x);
      ms, z := a + b, x;
    }
  }

  /** Only the fan-out and the subscribers' queues change. */
  ghost predicate FanOnly(s: Bus, z: Bus) {
    && z.callers == s.callers && z.writer == s.writer && z.readers == s.readers && z.once == s.once
    && z.pubClosed == s.pubClosed && z.names == s.names
  }

  lemma {:induction false} SendOne(s: Bus, id: nat) returns (ms: seq<Move>, z: Bus)
    requires Inv(s) && s.fan.Sending? && id in s.fan.todo
    ensures Leads(s, ms, z) && FanOnly(s, z) && z.queue == s.queue && z.fan == Sending(s.fan.i, s.fan.todo - {id})
  {
    LeadsNone(s);
    ms, z := Take(s, [], s, RunSend(id));
  }

  /** The fan-out of one chunk. */
  lemma {:induction false} FinishFan(s: Bus) returns (ms: seq<Move>, z: Bus)
    requires Inv(s) && s.fan.Sending?
    ensures Leads(s, ms, z) && FanOnly(s, z) && z.queue == s.queue && z.fan.Idle?
    decreases s.fan.todo
  {
    if s.fan.todo == {} {
      LeadsNone(s);
      ms, z := Take(s, [], s, RunRUnlock);
    } else {
      var id :| id in s.fan.todo;
      var a, y := SendOne(s, id);
      var b, x := FinishFan(y);
      LeadsCat(s, a, y, b, x);
      ms, z := a + b, x;
    }
  }

  /** Only `p` moves among the callers, and the fan-out and the readers are left alone. */
  ghost predicate CallerOnly(s: Bus, z: Bus, p: nat) {
    && z.fan == s.fan && z.readers == s.readers && z.queue == s.queue
    && z.callers.Keys == s.callers.Keys && forall q :: q in s.callers && q != p ==> z.callers[q] == s.callers[q]
  }

  lemma {:induction false} CloseOne(s: Bus, t: nat, name: string) returns (ms: seq<Move>, z: Bus)
    requires Inv(s) && At(s, t, StopHeld) && name in s.names
    ensures Leads(s, ms, z) && CallerOnly(s, z, t) && At(z, t, StopHeld) && z.names == s.names - {name}
    ensures z.once == s.once && z.pubClosed == s.pubClosed
  {
    LeadsNone(s);
    ms, z := Take(s, [], s, StopClose(t, name));
  }

  /** The closing loop of Stop, and the lock given back. */
  lemma {:induction false} CloseAll(s: Bus, t: nat) returns (ms: seq<Move>, z: Bus)
    requires Inv(s) && At(s, t, StopHeld)
    ensures Leads(s, ms, z) && CallerOnly(s, z, t) && At(z, t, WaitAll) && z.names == map[] && z.writer.None?
    ensures z.once == s.once && z.pubClosed == s.pubClosed
    decreases s.names.Keys
  {
    if s.names == map[] {
      LeadsNone(s);
      ms, z := Take(s, [], s, StopUnlock(t));
    } else {
      var name := SomeName(s.names);
      var a, y := CloseOne(s, t, name);
      var b, x := CloseAll(y, t);
      LeadsCat(s, a, y, b, x);
      ms, z := a + b, x;
    }
  }

  /** One step of the caller `p`, to `pc`, which leaves the lock, `once` and the names as they are. */
  ghost predicate StepsTo(s: Bus, z: Bus, p: nat, pc: Pc) {
    CallerOnly(s, z, p) && At(z, p, pc) && z.once == s.once && z.names == s.names
  }

  lemma {:induction false} FlagStep(s: Bus, p: nat) returns (ms: seq<Move>, z: Bus)
    requires Inv(s) && At(s, p, OnceHeld)
    ensures Leads(s, ms, z) && StepsTo(s, z, p, OnceFlagged)
  {
    LeadsNone(s);
    ms, z := Take(s, [], s, OnceFlag(p));
  }

  lemma {:induction false} CloseStep(s: Bus, p: nat) returns (ms: seq<Move>, z: Bus)
    requires Inv(s) && At(s, p, OnceFlagged)
    ensures Leads(s, ms, z) && StepsTo(s, z, p, OnceClosed)
  {
    LeadsNone(s);
    ms, z := Take(s, [], s, OnceClose(p));
  }

  lemma {:induction false} UnlockStep(s: Bus, p: nat) returns (ms: seq<Move>, z: Bus)
    requires Inv(s) && At(s, p, OnceClosed)
    ensures Leads(s, ms, z) && CallerOnly(s, z, p) && At(z, p, WaitRun) && z.writer.None? && z.once.Finished? && z.pubClosed
    ensures z.names == s.names
  {
    LeadsNone(s);
    ms, z := Take(s, [], s, OnceUnlock(p));
  }

  lemma {:induction false} FinishFlagged(s: Bus, p: nat) returns (ms: seq<Move>, z: Bus)
    requires Inv(s) && At(s, p, OnceFlagged)
    ensures Leads(s, ms, z) && CallerOnly(s, z, p) && At(z, p, WaitRun) && z.writer.None? && z.once.Finished? && z.pubClosed
    ensures z.names == s.names
  {
    var a, y := CloseStep(s, p);
    var b, x := UnlockStep(y, p);
    LeadsCat(s, a, y, b, x);
    ms, z := a + b, x;
  }

  /** The rest of the once-only part of Stop. */
  lemma {:induction false} FinishOnce(s: Bus, p: nat) returns (ms: seq<Move>, z: Bus)
    requires Inv(s) && p in s.callers && (s.callers[p].OnceHeld? || s.callers[p].OnceFlagged? || s.callers[p].OnceClosed?)
    ensures Leads(s, ms, z) && CallerOnly(s, z, p) && At(z, p, WaitRun) && z.writer.None? && z.once.Finished? && z.pubClosed
    ensures z.names == s.names
  {
    if s.callers[p].OnceHeld? {
      var a, y := FlagStep(s, p);
      var b, x := FinishFlagged(y, p);
      LeadsCat(s, a, y, b, x);
      ms, z := a + b, x;
    } else if s.callers[p].OnceFlagged? {
      ms, z := FinishFlagged(s, p);
    } else {
      ms, z := UnlockStep(s, p);
    }
  }

  /** What `SubAdd` does to the callers, the fan-out and the lock. */
  lemma {:induction false} Added(s: Bus, p: nat)
    requires CanSubscribe(s, SubAdd(p))
    ensures var z := Subscribe(s, SubAdd(p)); CallerOnly(s, z, p) && At(z, p, SubLeave) && z.writer == s.writer && s.callers[p].name in z.names
  {
  }

  lemma {:induction false} AddStep(s: Bus, p: nat) returns (ms: seq<Move>, z: Bus)
    requires Inv(s) && p in s.callers && s.callers[p].SubHeld?
    ensures Leads(s, ms, z) && CallerOnly(s, z, p) && At(z, p, SubLeave)
  {
    LeadsNone(s);
    Added(s, p);
    ms, z := Take(s, [], s, SubAdd(p));
  }

  lemma {:induction false} LeaveStep(s: Bus, p: nat) returns (ms: seq<Move>, z: Bus)
    requires Inv(s) && At(s, p, SubLeave)
    ensures Leads(s, ms, z) && CallerOnly(s, z, p) && z.writer.None? && At(z, p, Returned)
  {
    LeadsNone(s);
    ms, z := Take(s, [], s, SubUnlock(p));
  }

  lemma {:induction false} FinishSubscriber(s: Bus, p: nat) returns (ms: seq<Move>, z: Bus)
    requires Inv(s) && p in s.callers && (s.callers[p].SubHeld? || s.callers[p].SubLeave?)
    ensures Leads(s, ms, z) && CallerOnly(s, z, p) && z.writer.None? && At(z, p, Returned)
  {
    if s.callers[p].SubHeld? {
      var a, y := AddStep(s, p);
      var b, x := LeaveStep(y, p);
      LeadsCat(s, a, y, b, x);
      ms, z := a + b, x;
    } else {
      ms, z := LeaveStep(s, p);
    }
  }

  // ---------------------------------------------------------------- driving a Stop call

  /** Where a Stop call still has its closing loop before it. */
  predicate Closer(pc: Pc) {
    pc.StopStart? || InOnce(pc) || pc.WaitRun? || pc.StopWant? || pc.StopHeld?
  }

  /** `q` has its closing loop before it, or is through it with nothing left registered. */
  ghost predicate Ahead(s: Bus, q: nat) {
    q in s.callers && (Closer(s.callers[q]) || (s.callers[q].WaitAll? && s.names == map[]))
  }

  lemma {:induction false} FinishWriter(s: Bus, q: nat) returns (ms: seq<Move>, z: Bus)
    requires Inv(s) && s.writer.Some? && q in s.callers && Closer(s.callers[q])
    ensures Leads(s, ms, z) && Unlocked(z) && Ahead(z, q)
  {
    var w := s.writer.value;
    if s.callers[w].SubHeld? || s.callers[w].SubLeave? {
      ms, z := FinishSubscriber(s, w);
    } else if s.callers[w].StopHeld? {
      ms, z := CloseAll(s, w);
    } else {
      ms, z := FinishOnce(s, w);
    }
  }

  lemma {:induction false} ClearLock(s: Bus, q: nat) returns (ms: seq<Move>, z: Bus)
    requires Inv(s) && q in s.callers && Closer(s.callers[q])
    ensures Leads(s, ms, z) && Unlocked(z) && Ahead(z, q)
  {
    if s.writer.Some? {
      ms, z := FinishWriter(s, q);
    } else {
      ms, z := ClearReaders(s);
      assert z.callers[q] == s.callers[q];
      if z.fan.Sending? {
        var b, x := FinishFan(z);
        LeadsCat(s, ms, z, b, x);
        ms, z := ms + b, x;
      }
    }
  }

  lemma {:induction false} RunOnce(s: Bus, p: nat) returns (ms: seq<Move>, z: Bus)
    requires Inv(s) && Unlocked(s) && At(s, p, OnceStart)
    ensures Leads(s, ms, z) && Unlocked(z) && At(z, p, WaitRun) && z.once.Finished? && z.pubClosed && z.callers.Keys == s.callers.Keys
    ensures forall q :: q in s.callers && q != p ==> z.callers[q] == s.callers[q]
  {
    LeadsNone(s);
    var a, y := Take(s, [], s, OnceLock(p));
    var b, x := FinishOnce(y, p);
    LeadsCat(s, a, y, b, x);
    ms, z := a + b, x;
  }

  /** Past the once-only part. */
  predicate Past(pc: Pc) {
    pc.WaitRun? || pc.StopWant?
  }

  lemma {:induction false} StartStop(s: Bus, q: nat) returns (ms: seq<Move>, z: Bus)
    requires Inv(s) && Unlocked(s) && At(s, q, StopStart)
    ensures Leads(s, ms, z) && Unlocked(z) && q in z.callers && Past(z.callers[q])
  {
    LeadsNone(s);
    ms, z := [], s;
    if s.once.Fresh? {
      ms, z := Take(s, ms, z, StopFirst(q));
      var b, x := RunOnce(z, q);
      LeadsCat(s, ms, z, b, x);
      ms, z := ms + b, x;
    } else {
      if s.once.Running? {
        ms, z := RunOnce(s, s.once.t);
      }
      ms, z := Take(s, ms, z, StopLater(q));
    }
  }

  lemma {:induction false} PassOnce(s: Bus, q: nat) returns (ms: seq<Move>, z: Bus)
    requires Inv(s) && Unlocked(s) && q in s.callers && Closer(s.callers[q])
    ensures Leads(s, ms, z) && Unlocked(z) && q in z.callers && Past(z.callers[q])
  {
    if s.callers[q].StopStart? {
      ms, z := StartStop(s, q);
    } else if s.callers[q].OnceStart? {
      ms, z := RunOnce(s, q);
    } else {
      LeadsNone(s);
      ms, z := [], s;
    }
  }

  lemma {:induction false} FanOne(s: Bus) returns (ms: seq<Move>, z: Bus)
    requires Inv(s) && s.fan.Got? && s.writer.None?
    ensures Leads(s, ms, z) && FanOnly(s, z) && z.queue == s.queue && z.fan.Idle?
  {
    LeadsNone(s);
    var a, y := Take(s, [], s, RunRLock);
    var b, x := FinishFan(y);
    LeadsCat(s, a, y, b, x);
    ms, z := a + b, x;
  }

  /** The fan-out takes all that is left and exits. */
  lemma {:induction false} ExitFan(s: Bus) returns (ms: seq<Move>, z: Bus)
    requires Inv(s) && Unlocked(s) && s.pubClosed
    ensures Leads(s, ms, z) && FanOnly(s, z) && z.fan.Exited?
    decreases |s.queue|, if s.fan.Got? then 1 else 0
  {
    LeadsNone(s);
    if s.fan.Exited? {
      ms, z := [], s;
    } else if s.fan.Idle? && s.queue == [] {
      ms, z := Take(s, [], s, RunExit);
    } else {
      var a, y;
      if s.fan.Got? {
        a, y := FanOne(s);
      } else {
        a, y := Take(s, [], s, RunRecv);
      }
      var b, x := ExitFan(y);
      LeadsCat(s, a, y, b, x);
      ms, z := a + b, x;
    }
  }

  lemma {:induction false} CloseBy(s: Bus, q: nat) returns (ms: seq<Move>, z: Bus)
    requires Inv(s) && Unlocked(s) && s.fan.Exited? && q in s.callers && Past(s.callers[q])
    ensures Leads(s, ms, z) && At(z, q, WaitAll) && z.names == map[]
  {
    LeadsNone(s);
    ms, z := [], s;
    if s.callers[q].WaitRun? {
      ms, z := Take(s, ms, z, StopRunDone(q));
    }
    ms, z := Take(s, ms, z, StopLock(q));
    var b, x := CloseAll(z, q);
    LeadsCat(s, ms, z, b, x);
    ms, z := ms + b, x;
  }

  /** A Stop call that has its closing loop before it can be brought through it. */
  lemma {:induction false} Drive(s: Bus, q: nat) returns (ms: seq<Move>, z: Bus)
    requires Inv(s) && q in s.callers && Closer(s.callers[q])
    ensures Leads(s, ms, z) && At(z, q, WaitAll) && z.names == map[]
  {
    ms, z := ClearLock(s, q);
    if Closer(z.callers[q]) {
      var b, x := PassOnce(z, q);
      LeadsCat(s, ms, z, b, x);
      ms, z := ms + b, x;
      b, x := ExitFan(z);
      LeadsCat(s, ms, z, b, x);
      ms, z := ms + b, x;
      b, x := CloseBy(z, q);
      LeadsCat(s, ms, z, b, x);
      ms, z := ms + b, x;
    }
  }

  // ---------------------------------------------------------------- what cannot be helped

  /** What a move that is no new call makes of the callers. */
  ghost predicate Onward(s: Bus, z: Bus) {
    && (forall p :: p in z.callers && Closer(z.callers[p]) ==> p in s.callers && Closer(s.callers[p]))
    && (forall p :: p in s.callers && s.callers[p].WaitAll? ==> p in z.callers && (z.callers[p].WaitAll? || z.callers[p].Stopped?))
  }

  lemma {:induction false} PublishersOnward(s: Bus, m: Move)
    requires CanPublish(s, m) && !m.Call?
    ensures Onward(s, Publish(s, m)) && Publish(s, m).names == s.names
  {
  }

  lemma {:induction false} SubscribersOnward(s: Bus, m: Move)
    requires CanSubscribe(s, m)
    ensures Onward(s, Subscribe(s, m)) && s.names.Keys <= Subscribe(s, m).names.Keys
  {
  }

  lemma {:induction false} ClosersOnward(s: Bus, m: Move)
    requires CanClose(s, m)
    ensures Onward(s, Close(s, m)) && Close(s, m).names == s.names
  {
  }

  lemma {:induction false} StoppersOnward(s: Bus, m: Move)
    requires CanStop(s, m)
    ensures Onward(s, Stop(s, m)) && (!m.StopClose? ==> Stop(s, m).names == s.names)
    ensures !m.StopReturn? ==> forall p :: p in s.callers && s.callers[p].WaitAll? ==> p in Stop(s, m).callers && Stop(s, m).callers[p].WaitAll?
  {
  }

  lemma {:induction false} FanOnward(s: Bus, m: Move)
    requires CanFanOut(s, m)
    ensures FanOut(s, m).callers == s.callers && FanOut(s, m).names == s.names
  {
  }

  lemma {:induction false} DeliveryOnward(s: Bus, m: Move)
    requires CanDeliver(s, m)
    ensures Deliver(s, m).callers == s.callers && Deliver(s, m).names == s.names
  {
  }

  lemma {:induction false} MoveOnward(s: Bus, m: Move)
    requires Enabled(s, m) && !m.Call?
    ensures Onward(s, Apply(s, m)) && (!m.StopClose? ==> s.names.Keys <= Apply(s, m).names.Keys)
  {
    if Publishing(m) {
      PublishersOnward(s, m);
    } else if Subscribing(m) {
      SubscribersOnward(s, m);
    } else if Closing(m) {
      ClosersOnward(s, m);
    } else if Stopping(m) {
      StoppersOnward(s, m);
    } else if Fanning(m) {
      FanOnward(s, m);
    } else {
      DeliveryOnward(s, m);
    }
  }

  lemma {:induction false} SomeName(names: map<string, nat>) returns (n: string)
    requires names != map[]
    ensures n in names
  {
    assert names.Keys != {};
    n :| n in names.Keys;
  }

  /** Subscribers are registered, and no Stop call has its closing loop before it. */
  ghost predicate Abandoned(s: Bus) {
    s.names != map[] && forall q :: q in s.callers ==> !Closer(s.callers[q])
  }

  lemma {:induction false} AbandonedRun(s: Bus, ms: seq<Move>)
    requires Inv(s) && Abandoned(s) && Legal(s, ms) && NoCalls(ms)
    ensures Inv(After(s, ms)) && Abandoned(After(s, ms))
    decreases ms
  {
    if ms != [] {
      var z := Apply(s, ms[0]);
      InvStep(s, ms[0]);
      MoveOnward(s, ms[0]);
      AbandonedStep(s, ms[0]);
      AbandonedRun(z, ms[1..]);
    }
  }

  lemma {:induction false} AbandonedStep(s: Bus, m: Move)
    requires Abandoned(s) && Enabled(s, m) && !m.Call?
    ensures Abandoned(Apply(s, m))
  {
    MoveOnward(s, m);
    assert !m.StopClose?;
    var n := SomeName(s.names);
    assert n in Apply(s, m).names.Keys;
  }

  lemma {:induction false} RegisteredHolds(s: Bus, t: nat)
    requires Inv(s) && s.names != map[]
    ensures !Enabled(s, StopReturn(t))
  {
    var n := SomeName(s.names);
    assert !s.subs[s.names[n]].exited;
  }

  // ---------------------------------------------------------------- the theorem

  lemma {:induction false} WaitingStays(s: Bus, ms: seq<Move>, p: nat)
    requires Legal(s, ms) && At(s, p, WaitAll) && forall i :: 0 <= i < |ms| ==> Tame(ms[i])
    ensures At(After(s, ms), p, WaitAll)
    decreases ms
  {
    if ms != [] {
      WaitingStep(s, ms[0], p);
      WaitingStays(Apply(s, ms[0]), ms[1..], p);
    }
  }

  lemma {:induction false} WaitingStep(s: Bus, m: Move, p: nat)
    requires Enabled(s, m) && Tame(m) && At(s, p, WaitAll)
    ensures At(Apply(s, m), p, WaitAll)
  {
    if Publishing(m) {
      PublishersWait(s, m, p);
    } else if Subscribing(m) {
      SubscribersWait(s, m, p);
    } else if Closing(m) {
      ClosersWait(s, m, p);
    } else if Stopping(m) {
      StoppersOnward(s, m);
    } else if Fanning(m) {
      FanOnward(s, m);
    } else {
      DeliveryOnward(s, m);
    }
  }

  lemma {:induction false} PublishersWait(s: Bus, m: Move, p: nat)
    requires CanPublish(s, m) && !m.Call? && At(s, p, WaitAll)
    ensures At(Publish(s, m), p, WaitAll)
  {
  }

  lemma {:induction false} SubscribersWait(s: Bus, m: Move, p: nat)
    requires CanSubscribe(s, m) && At(s, p, WaitAll)
    ensures At(Subscribe(s, m), p, WaitAll)
  {
  }

  lemma {:induction false} ClosersWait(s: Bus, m: Move, p: nat)
    requires CanClose(s, m) && At(s, p, WaitAll)
    ensures At(Close(s, m), p, WaitAll)
  {
  }

  /** Some run without new calls lets the Stop call `t` return. */
  ghost predicate CanReturn(s: Bus, t: nat) {
    exists ms :: Legal(s, ms) && NoCalls(ms) && Enabled(After(s, ms), StopReturn(t))
  }

  lemma {:induction false} ReturnAfter(s: Bus, a: seq<Move>, z: Bus, t: nat)
    requires Leads(s, a, z) && At(z, t, WaitAll) && z.names == map[]
    ensures CanReturn(s, t)
  {
    var b := DrainAll(z, t);
    RunCat(s, a, b);
    assert NoCalls(a + b);
  }

  /**
   From every state the invariant allows, and so from every reachable one: a Stop call in
   flight can return without further calls if and only if no subscriber is registered or some
   Stop call, maybe itself, has its closing loop before it.  `Subscribe` does not look at the
   stop flag, so a subscriber that comes after the last closing loop is never closed.
   */
  lemma {:induction false} StopReturnsIff(s: Bus, t: nat)
    requires Inv(s) && t in s.callers && (Closer(s.callers[t]) || s.callers[t].WaitAll?)
    ensures CanReturn(s, t) <==> (s.names == map[] || exists q :: q in s.callers && Closer(s.callers[q]))
  {
    if Closer(s.callers[t]) {
      var a, z := Drive(s, t);
      ReturnAfter(s, a, z, t);
    } else if s.names == map[] {
      LeadsNone(s);
      ReturnAfter(s, [], s, t);
    } else if q :| q in s.callers && Closer(s.callers[q]) {
      var a, z := Drive(s, q);
      WaitingStays(s, a, t);
      ReturnAfter(s, a, z, t);
    } else {
      forall ms | Legal(s, ms) && NoCalls(ms)
        ensures !Enabled(After(s, ms), StopReturn(t))
      {
        AbandonedRun(s, ms);
        RegisteredHolds(After(s, ms), t);
      }
    }
  }

  // ---------------------------------------------------------------- a Stop call that never returns

  /** A run from the start. */
  ghost predicate Reaches(cap: nat, ms: seq<Move>, z: Bus) {
    Legal(Start(cap), ms) && After(Start(cap), ms) == z
  }

  lemma {:induction false} Make(cap: nat, a: seq<Move>, y: Bus, m: Move) returns (ms: seq<Move>, z: Bus)
    requires Reaches(cap, a, y) && Enabled(y, m)
    ensures z == Apply(y, m) && Reaches(cap, ms, z)
  {
    z := Apply(y, m);
    ms := a + [m];
    RunOne(y, m);
    RunCat(Start(cap), a, [m]);
  }

  /** One Stop call, all by itself, through the once-only part. */
  lemma {:induction false} StopOnceAlone(cap: nat) returns (ms: seq<Move>, z: Bus)
    ensures Reaches(cap, ms, z) && z.callers == map[0 := WaitRun] && Unlocked(z) && z.names == map[] && z.fan.Exited?
  {
    ms, z := [], Start(cap);
    ms, z := Make(cap, ms, z, Call(0, StopStart));
    ms, z := Make(cap, ms, z, StopFirst(0));
    ms, z := Make(cap, ms, z, OnceLock(0));
    ms, z := Make(cap, ms, z, OnceFlag(0));
    ms, z := Make(cap, ms, z, OnceClose(0));
    ms, z := Make(cap, ms, z, OnceUnlock(0));
    ms, z := Make(cap, ms, z, RunExit);
  }

  /** And up to where it waits for the dispatchers. */
  lemma {:induction false} StopAlone(cap: nat) returns (ms: seq<Move>, z: Bus)
    ensures Reaches(cap, ms, z) && z.callers == map[0 := WaitAll] && Unlocked(z)
  {
    ms, z := StopOnceAlone(cap);
    ms, z := Make(cap, ms, z, StopRunDone(0));
    ms, z := Make(cap, ms, z, StopLock(0));
    ms, z := Make(cap, ms, z, StopUnlock(0));
  }

  /** A subscription, up to where it holds the lock. */
  lemma {:induction false} SubscribeLocked(cap: nat, a: seq<Move>, y: Bus) returns (ms: seq<Move>, z: Bus)
    requires Reaches(cap, a, y) && y.callers == map[0 := WaitAll] && Unlocked(y)
    ensures Reaches(cap, ms, z) && z.callers == map[0 := WaitAll, 1 := SubHeld("x")]
  {
    ms, z := Make(cap, a, y, Call(1, SubStart("x")));
    assert z.callers == map[0 := WaitAll, 1 := SubStart("x")];
    ms, z := Make(cap, ms, z, SubLock(1));
  }

  lemma {:induction false} AddedNext(y: Bus, z: Bus)
    requires y.callers == map[0 := WaitAll, 1 := SubHeld("x")] && Enabled(y, SubAdd(1)) && z == Apply(y, SubAdd(1))
    ensures z.callers == map[0 := WaitAll, 1 := SubLeave] && "x" in z.names
  {
    Added(y, 1);
  }

  lemma {:induction false} SubscribeAdded(cap: nat, a: seq<Move>, y: Bus) returns (ms: seq<Move>, z: Bus)
    requires Reaches(cap, a, y) && y.callers == map[0 := WaitAll, 1 := SubHeld("x")]
    ensures Reaches(cap, ms, z) && z.callers == map[0 := WaitAll, 1 := SubLeave] && "x" in z.names
  {
    ms, z := Make(cap, a, y, SubAdd(1));
    AddedNext(y, z);
  }

  lemma {:induction false} SubscribeDone(cap: nat, a: seq<Move>, y: Bus) returns (ms: seq<Move>, z: Bus)
    requires Reaches(cap, a, y) && y.callers == map[0 := WaitAll, 1 := SubLeave] && "x" in y.names
    ensures Reaches(cap, ms, z) && z.callers == map[0 := WaitAll, 1 := Returned] && "x" in z.names
  {
    ms, z := Make(cap, a, y, SubUnlock(1));
  }

  lemma {:induction false} ReachedInv(cap: nat, ms: seq<Move>, z: Bus)
    requires Reaches(cap, ms, z)
    ensures Inv(z)
  {
    InvRun(Start(cap), ms);
  }

  /** A subscriber that comes after the closing loop leaves the Stop call waiting for ever. */
  lemma {:induction false} LateSubscriber(cap: nat) returns (ms: seq<Move>, z: Bus)
    ensures Reaches(cap, ms, z) && At(z, 0, WaitAll) && "x" in z.names && !CanReturn(z, 0)
  {
    ms, z := StopAlone(cap);
    ms, z := SubscribeLocked(cap, ms, z);
    ms, z := SubscribeAdded(cap, ms, z);
    ms, z := SubscribeDone(cap, ms, z);
    ReachedInv(cap, ms, z);
    StopReturnsIff(z, 0);
  }
}
