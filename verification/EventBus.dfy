/**
 The event bus: publishers, subscribers and stoppers call in from any number of goroutines,
 one goroutine (`run`) fans chunks out, one goroutine per subscriber handles them.  The bus
 is a state machine whose moves are the atomic actions of these goroutines; a run is any
 sequence of enabled moves, so every interleaving is covered.

 A chunk is known by its index in `accepted`, the chunks that entered the publisher channel,
 in order.  Sending on a closed channel or closing one twice sets `panicked`.
 */
module EventBus {
  import opened Options
  import opened Protocol

  const QUEUE := 256

  /** One subscriber: its channel, and what became of the chunks fanned out to it. */
  datatype Sub = Sub(
    name: string,
    from: nat,            // the first chunk fanned out after it subscribed
    queue: seq<nat>,      // its channel
    closed: bool,
    exited: bool,         // its dispatcher has returned
    handled: seq<nat>,
    lost: set<nat>)       // skipped because the channel was full

  datatype Fan = Idle | Got(i: nat) | Sending(i: nat, todo: set<nat>) | Exited

  datatype Once = Fresh | Running(t: nat) | Finished

  /** Where a caller is. */
  datatype Pc =
    | PubStart(chunk: Chunk, ctx: bool) | PubHeld(chunk: Chunk, ctx: bool) | PubChecked(chunk: Chunk, ctx: bool) | PubLeave
    | SubStart(name: string) | SubHeld(name: string) | SubLeave
    | StopStart | OnceStart | OnceHeld | OnceFlagged | OnceClosed
    | WaitRun | StopWant | StopHeld | WaitAll
    | Returned | Stopped

  datatype Bus = Bus(
    cap: nat,
    accepted: seq<Chunk>,
    taken: nat,           // how many chunks `run` has received
    queue: seq<nat>,      // the publisher channel
    pubClosed: bool,
    stopped: bool,
    once: Once,
    fan: Fan,
    names: map<string, nat>,
    subs: map<nat, Sub>,
    nextId: nat,
    callers: map<nat, Pc>,
    writer: Option<nat>,
    readers: set<nat>,
    panicked: bool)

  function Start(cap: nat): Bus {
    Bus(cap, [], 0, [], false, false, Fresh, Idle, map[], map[], 0, map[], None, {}, false)
  }

  datatype Move =
    | Call(t: nat, pc: Pc)
    | PubRLock(t: nat) | PubCheck(t: nat) | PubSend(t: nat) | PubSkip(t: nat) | PubRUnlock(t: nat)
    | SubLock(t: nat) | SubAdd(t: nat) | SubUnlock(t: nat)
    | StopFirst(t: nat) | StopLater(t: nat) | OnceLock(t: nat) | OnceFlag(t: nat) | OnceClose(t: nat) | OnceUnlock(t: nat)
    | StopRunDone(t: nat) | StopLock(t: nat) | StopClose(t: nat, name: string) | StopUnlock(t: nat) | StopReturn(t: nat)
    | RunRecv | RunExit | RunRLock | RunSend(id: nat) | RunRUnlock
    | DispRecv(id: nat) | DispExit(id: nat)

  predicate At(s: Bus, t: nat, pc: Pc) {
    t in s.callers && s.callers[t] == pc
  }

  /** Room in the publisher channel; an unbuffered one hands over to a waiting `run`. */
  predicate Room(s: Bus) {
    |s.queue| < s.cap || (s.cap == 0 && s.queue == [] && s.fan.Idle?)
  }

  predicate Unlocked(s: Bus) {
    s.writer.None? && s.readers == {} && !s.fan.Sending?
  }

  // Which goroutine a move belongs to: moves and proofs go by goroutine.

  predicate Publishing(m: Move) {
    m.Call? || m.PubRLock? || m.PubCheck? || m.PubSend? || m.PubSkip? || m.PubRUnlock?
  }

  predicate Subscribing(m: Move) {
    m.SubLock? || m.SubAdd? || m.SubUnlock?
  }

  predicate Closing(m: Move) {
    m.StopFirst? || m.StopLater? || m.OnceLock? || m.OnceFlag? || m.OnceClose? || m.OnceUnlock?
  }

  predicate Stopping(m: Move) {
    m.StopRunDone? || m.StopLock? || m.StopClose? || m.StopUnlock? || m.StopReturn?
  }

  predicate Fanning(m: Move) {
    m.RunRecv? || m.RunExit? || m.RunRLock? || m.RunRUnlock?
  }

  /** Moves that touch one subscriber's channel and leave the registrations alone. */
  predicate Delivering(m: Move) {
    m.RunSend? || m.DispRecv? || m.DispExit?
  }

  predicate CanPublish(s: Bus, m: Move) {
    match m
    case Call(t, pc) => t !in s.callers && (pc.PubStart? || pc.SubStart? || pc.StopStart?)
    case PubRLock(t) => t in s.callers && s.callers[t].PubStart? && s.writer.None?
    case PubCheck(t) => t in s.callers && s.callers[t].PubHeld?
    case PubSend(t) => t in s.callers && s.callers[t].PubChecked? && (s.pubClosed || Room(s))
    case PubSkip(t) => t in s.callers && s.callers[t].PubChecked? && !s.pubClosed && (s.callers[t].ctx || !Room(s))
    case PubRUnlock(t) => At(s, t, PubLeave)
    case _ => false
  }

  predicate CanSubscribe(s: Bus, m: Move) {
    match m
    case SubLock(t) => t in s.callers && s.callers[t].SubStart? && Unlocked(s)
    case SubAdd(t) => t in s.callers && s.callers[t].SubHeld?
    case SubUnlock(t) => At(s, t, SubLeave)
    case _ => false
  }

  predicate CanClose(s: Bus, m: Move) {
    match m
    case StopFirst(t) => At(s, t, StopStart) && s.once.Fresh?
    case StopLater(t) => At(s, t, StopStart) && s.once.Finished?
    case OnceLock(t) => At(s, t, OnceStart) && Unlocked(s)
    case OnceFlag(t) => At(s, t, OnceHeld)
    case OnceClose(t) => At(s, t, OnceFlagged)
    case OnceUnlock(t) => At(s, t, OnceClosed)
    case _ => false
  }

  predicate CanStop(s: Bus, m: Move) {
    match m
    case StopRunDone(t) => At(s, t, WaitRun) && s.fan.Exited?
    case StopLock(t) => At(s, t, StopWant) && Unlocked(s)
    case StopClose(t, name) => At(s, t, StopHeld) && name in s.names && s.names[name] in s.subs
    case StopUnlock(t) => At(s, t, StopHeld) && s.names == map[]
    case StopReturn(t) => At(s, t, WaitAll) && s.fan.Exited? && forall id :: id in s.subs ==> s.subs[id].exited
    case _ => false
  }

  predicate CanFanOut(s: Bus, m: Move) {
    match m
    case RunRecv => s.fan.Idle? && s.queue != []
    case RunExit => s.fan.Idle? && s.queue == [] && s.pubClosed
    case RunRLock => s.fan.Got? && s.writer.None?
    case RunRUnlock => s.fan.Sending? && s.fan.todo == {}
    case _ => false
  }

  predicate CanDeliver(s: Bus, m: Move) {
    match m
    case RunSend(id) => s.fan.Sending? && id in s.fan.todo && id in s.subs
    case DispRecv(id) => id in s.subs && !s.subs[id].exited && s.subs[id].queue != []
    case DispExit(id) => id in s.subs && !s.subs[id].exited && s.subs[id].queue == [] && s.subs[id].closed
    case _ => false
  }

  function Goto(s: Bus, t: nat, pc: Pc): Bus {
    s.(callers := s.callers[t := pc])
  }

  /** The first chunk a new subscriber will be offered. */
  function Upcoming(s: Bus): nat {
    if s.fan.Got? then s.fan.i else s.taken
  }

  function Publish(s: Bus, m: Move): Bus
    requires CanPublish(s, m)
  {
    match m
    case Call(t, pc) => Goto(s, t, pc)
    case PubRLock(t) => Goto(s, t, PubHeld(s.callers[t].chunk, s.callers[t].ctx)).(readers := s.readers + {t})
    case PubCheck(t) =>
      Goto(s, t, if s.stopped then PubLeave else PubChecked(s.callers[t].chunk, s.callers[t].ctx))
    case PubSend(t) =>
      if s.pubClosed then s.(panicked := true)
      else Goto(s, t, PubLeave).(accepted := s.accepted + [s.callers[t].chunk], queue := s.queue + [|s.accepted|])
    case PubSkip(t) => Goto(s, t, PubLeave)
    case PubRUnlock(t) => Goto(s, t, Returned).(readers := s.readers - {t})
  }

  function Subscribe(s: Bus, m: Move): Bus
    requires CanSubscribe(s, m)
  {
    match m
    case SubLock(t) => Goto(s, t, SubHeld(s.callers[t].name)).(writer := Some(t))
    case SubAdd(t) =>
      var name := s.callers[t].name;
      if name in s.names then Goto(s, t, SubLeave)
      else Goto(s, t, SubLeave).(
        names := s.names[name := s.nextId],
        subs := s.subs[s.nextId := Sub(name, Upcoming(s), [], false, false, [], {})],
        nextId := s.nextId + 1)
    case SubUnlock(t) => Goto(s, t, Returned).(writer := None)
  }

  function Close(s: Bus, m: Move): Bus
    requires CanClose(s, m)
  {
    match m
    case StopFirst(t) => Goto(s, t, OnceStart).(once := Running(t))
    case StopLater(t) => Goto(s, t, WaitRun)
    case OnceLock(t) => Goto(s, t, OnceHeld).(writer := Some(t))
    case OnceFlag(t) => Goto(s, t, OnceFlagged).(stopped := true)
    case OnceClose(t) =>
      if s.pubClosed then s.(panicked := true) else Goto(s, t, OnceClosed).(pubClosed := true)
    case OnceUnlock(t) => Goto(s, t, WaitRun).(writer := None, once := Finished)
  }

  function Stop(s: Bus, m: Move): Bus
    requires CanStop(s, m)
  {
    match m
    case StopRunDone(t) => Goto(s, t, StopWant)
    case StopLock(t) => Goto(s, t, StopHeld).(writer := Some(t))
    case StopClose(t, name) =>
      var id := s.names[name];
      if s.subs[id].closed then s.(panicked := true)
      else s.(subs := s.subs[id := s.subs[id].(closed := true)], names := s.names - {name})
    case StopUnlock(t) => Goto(s, t, WaitAll).(writer := None)
    case StopReturn(t) => Goto(s, t, Stopped)
  }

  function FanOut(s: Bus, m: Move): Bus
    requires CanFanOut(s, m)
  {
    match m
    case RunRecv => s.(fan := Got(s.queue[0]), queue := s.queue[1..], taken := s.taken + 1)
    case RunExit => s.(fan := Exited)
    case RunRLock => s.(fan := Sending(s.fan.i, s.names.Values))
    case RunRUnlock => s.(fan := Idle)
  }

  /** The subscriber a delivery leaves behind. */
  function Delivered(s: Bus, m: Move): Sub
    requires CanDeliver(s, m)
  {
    var b := s.subs[m.id];
    match m
    case RunSend(_) => if |b.queue| < QUEUE then b.(queue := b.queue + [s.fan.i]) else b.(lost := b.lost + {s.fan.i})
    case DispRecv(_) => b.(handled := b.handled + [b.queue[0]], queue := b.queue[1..])
    case _ => b.(exited := true)
  }

  function Deliver(s: Bus, m: Move): Bus
    requires CanDeliver(s, m)
  {
    if m.RunSend? && s.subs[m.id].closed then s.(panicked := true)
    else
      var z := s.(subs := s.subs[m.id := Delivered(s, m)]);
      if m.RunSend? then z.(fan := Sending(s.fan.i, s.fan.todo - {m.id})) else z
  }

  predicate Enabled(s: Bus, m: Move) {
    if Publishing(m) then CanPublish(s, m)
    else if Subscribing(m) then CanSubscribe(s, m)
    else if Closing(m) then CanClose(s, m)
    else if Stopping(m) then CanStop(s, m)
    else if Fanning(m) then CanFanOut(s, m)
    else CanDeliver(s, m)
  }

  function Apply(s: Bus, m: Move): Bus
    requires Enabled(s, m)
  {
    if Publishing(m) then Publish(s, m)
    else if Subscribing(m) then Subscribe(s, m)
    else if Closing(m) then Close(s, m)
    else if Stopping(m) then Stop(s, m)
    else if Fanning(m) then FanOut(s, m)
    else Deliver(s, m)
  }

  // ---------------------------------------------------------------- runs

  predicate Legal(s: Bus, ms: seq<Move>)
    decreases ms
  {
    ms == [] || (Enabled(s, ms[0]) && Legal(Apply(s, ms[0]), ms[1..]))
  }

  function After(s: Bus, ms: seq<Move>): Bus
    requires Legal(s, ms)
    decreases ms
  {
    if ms == [] then s else After(Apply(s, ms[0]), ms[1..])
  }

  // ---------------------------------------------------------------- invariant

  predicate HoldsRead(pc: Pc) {
    pc.PubHeld? || pc.PubChecked? || pc.PubLeave?
  }

  predicate HoldsWrite(pc: Pc) {
    pc.SubHeld? || pc.SubLeave? || pc.OnceHeld? || pc.OnceFlagged? || pc.OnceClosed? || pc.StopHeld?
  }

  predicate InOnce(pc: Pc) {
    pc.OnceStart? || pc.OnceHeld? || pc.OnceFlagged? || pc.OnceClosed?
  }

  predicate PastRun(pc: Pc) {
    pc.StopWant? || pc.StopHeld? || pc.WaitAll? || pc.Stopped?
  }

  /** The lock has one writer or any number of readers, and they are who their positions say. */
  ghost predicate LockInv(s: Bus) {
    && (s.writer.Some? ==> s.writer.value in s.callers && HoldsWrite(s.callers[s.writer.value]))
    && (forall t :: t in s.callers && HoldsWrite(s.callers[t]) ==> s.writer == Some(t))
    && (forall t :: t in s.readers ==> t in s.callers && HoldsRead(s.callers[t]))
    && (forall t :: t in s.callers && HoldsRead(s.callers[t]) ==> t in s.readers)
    && (s.writer.Some? ==> s.readers == {} && !s.fan.Sending?)
  }

  /** Who may have closed the publisher channel, and who may still believe it open. */
  ghost predicate StopInv(s: Bus) {
    && (s.pubClosed ==> s.stopped)
    && (s.once.Fresh? ==> !s.stopped)
    && (s.once.Finished? ==> s.pubClosed)
    && (s.once.Running? ==> s.once.t in s.callers && InOnce(s.callers[s.once.t]))
    && (forall t :: t in s.callers && InOnce(s.callers[t]) ==> s.once == Running(t))
    && (forall t :: t in s.callers && (s.callers[t].OnceStart? || s.callers[t].OnceHeld?) ==> !s.stopped)
    && (forall t :: t in s.callers && s.callers[t].OnceFlagged? ==> s.stopped && !s.pubClosed)
    && (forall t :: t in s.callers && s.callers[t].OnceClosed? ==> s.pubClosed)
    && (forall t :: t in s.callers && s.callers[t].PubChecked? ==> !s.stopped)
    && (forall t :: t in s.callers && s.callers[t].WaitRun? ==> s.pubClosed)
    && (forall t :: t in s.callers && PastRun(s.callers[t]) ==> s.fan.Exited?)
    && (s.fan.Exited? ==> s.pubClosed && s.queue == [])
  }

  /** A subscriber is open exactly while it is registered, and closes only after `run` has exited. */
  ghost predicate SubInv(s: Bus) {
    && (forall n :: n in s.names ==> s.names[n] in s.subs && s.subs[s.names[n]].name == n && !s.subs[s.names[n]].closed)
    && (forall id :: id in s.subs ==> id < s.nextId)
    && (forall id :: id in s.subs && !s.subs[id].closed ==> s.subs[id].name in s.names && s.names[s.subs[id].name] == id)
    && (forall id :: id in s.subs && s.subs[id].closed ==> s.fan.Exited?)
    && (forall id :: id in s.subs && s.subs[id].exited ==> s.subs[id].closed && s.subs[id].queue == [])
    && (s.fan.Sending? ==> forall id :: id in s.fan.todo ==> id in s.subs && !s.subs[id].closed)
  }

  /** The publisher channel holds the accepted chunks that `run` has not taken, in order. */
  ghost predicate QueueInv(s: Bus) {
    && s.taken + |s.queue| == |s.accepted|
    && (forall i :: 0 <= i < |s.queue| ==> s.queue[i] == s.taken + i)
    && (s.fan.Got? || s.fan.Sending? ==> s.fan.i + 1 == s.taken)
  }

  /** One past the last chunk offered to subscriber `id`. */
  function Offered(s: Bus, id: nat): nat {
    match s.fan
    case Idle => s.taken
    case Exited => s.taken
    case Got(i) => i
    case Sending(i, todo) => if id in todo then i else i + 1
  }

  ghost predicate Increasing(xs: seq<nat>) {
    forall i, j :: 0 <= i < j < |xs| ==> xs[i] < xs[j]
  }

  function Log(b: Sub): seq<nat> {
    b.handled + b.queue
  }

  /** Everything offered to a subscriber is handled, queued or lost; nothing twice, nothing out of order. */
  ghost predicate SubLog(b: Sub, upto: nat) {
    && b.from <= upto && |b.queue| <= QUEUE && Increasing(Log(b))
    && (forall i :: i in Log(b) ==> b.from <= i < upto && i !in b.lost)
    && (forall i :: i in b.lost ==> b.from <= i < upto)
    && (forall i :: b.from <= i < upto ==> i in Log(b) || i in b.lost)
  }

  ghost predicate LogInv(s: Bus) {
    forall id :: id in s.subs ==> SubLog(s.subs[id], Offered(s, id))
  }

  ghost predicate Inv(s: Bus) {
    !s.panicked && LockInv(s) && StopInv(s) && SubInv(s) && QueueInv(s) && LogInv(s)
  }

  lemma {:induction false} PublishNoPanic(s: Bus, m: Move)
    requires !s.panicked && StopInv(s) && CanPublish(s, m)
    ensures !Publish(s, m).panicked
  {
  }

  lemma {:induction false} CloseNoPanic(s: Bus, m: Move)
    requires !s.panicked && StopInv(s) && CanClose(s, m)
    ensures !Close(s, m).panicked
  {
  }

  lemma {:induction false} StopNoPanic(s: Bus, m: Move)
    requires !s.panicked && SubInv(s) && CanStop(s, m)
    ensures !Stop(s, m).panicked
  {
  }

  lemma {:induction false} DeliverNoPanic(s: Bus, m: Move)
    requires !s.panicked && SubInv(s) && CanDeliver(s, m)
    ensures !Deliver(s, m).panicked
  {
  }

  /** A caller that neither takes nor gives back the lock moves on. */
  lemma {:induction false} LockBystander(s: Bus, z: Bus, t: nat, pc: Pc)
    requires LockInv(s) && z.callers == s.callers[t := pc] && z.writer == s.writer && z.readers == s.readers && z.fan == s.fan
    requires HoldsRead(pc) <==> t in s.callers && HoldsRead(s.callers[t])
    requires HoldsWrite(pc) <==> t in s.callers && HoldsWrite(s.callers[t])
    ensures LockInv(z)
  {
  }

  lemma {:induction false} LockPublishing(s: Bus, m: Move)
    requires LockInv(s) && CanPublish(s, m) && !Publish(s, m).panicked
    ensures LockInv(Publish(s, m))
  {
    if !m.PubRLock? && !m.PubRUnlock? {
      LockBystander(s, Publish(s, m), m.t, Publish(s, m).callers[m.t]);
    }
  }

  lemma {:induction false} LockSubscribing(s: Bus, m: Move)
    requires LockInv(s) && CanSubscribe(s, m)
    ensures LockInv(Subscribe(s, m))
  {
    if m.SubAdd? {
      LockBystander(s, Subscribe(s, m), m.t, SubLeave);
    }
  }

  lemma {:induction false} LockClosing(s: Bus, m: Move)
    requires LockInv(s) && CanClose(s, m) && !Close(s, m).panicked
    ensures LockInv(Close(s, m))
  {
    if !m.OnceLock? && !m.OnceUnlock? {
      LockBystander(s, Close(s, m), m.t, Close(s, m).callers[m.t]);
    }
  }

  lemma {:induction false} LockStopping(s: Bus, m: Move)
    requires LockInv(s) && CanStop(s, m) && !Stop(s, m).panicked
    ensures LockInv(Stop(s, m))
  {
    if m.StopRunDone? || m.StopReturn? {
      LockBystander(s, Stop(s, m), m.t, Stop(s, m).callers[m.t]);
    }
  }

  lemma {:induction false} LockFanning(s: Bus, m: Move)
    requires LockInv(s) && CanFanOut(s, m)
    ensures LockInv(FanOut(s, m))
  {
  }

  lemma {:induction false} LockDelivering(s: Bus, m: Move)
    requires LockInv(s) && CanDeliver(s, m)
    ensures LockInv(Deliver(s, m))
  {
  }

  /** A caller that takes no part in stopping moves on. */
  lemma {:induction false} StopBystander(s: Bus, z: Bus, t: nat, pc: Pc)
    requires StopInv(s) && (t in s.callers ==> !InOnce(s.callers[t]))
    requires z.callers == s.callers[t := pc] && !InOnce(pc) && !PastRun(pc) && !pc.WaitRun? && (pc.PubChecked? ==> !s.stopped)
    requires z.pubClosed == s.pubClosed && z.stopped == s.stopped && z.once == s.once && z.fan == s.fan
    requires s.fan.Exited? ==> z.queue == s.queue
    ensures StopInv(z)
  {
  }

  lemma {:induction false} StopPublishing(s: Bus, m: Move)
    requires StopInv(s) && CanPublish(s, m)
    ensures StopInv(Publish(s, m))
  {
    StopBystander(s, Publish(s, m), m.t, Publish(s, m).callers[m.t]);
  }

  lemma {:induction false} StopSubscribing(s: Bus, m: Move)
    requires StopInv(s) && CanSubscribe(s, m)
    ensures StopInv(Subscribe(s, m))
  {
    StopBystander(s, Subscribe(s, m), m.t, Subscribe(s, m).callers[m.t]);
  }

  lemma {:induction false} StopEntering(s: Bus, m: Move)
    requires StopInv(s) && CanClose(s, m) && (m.StopFirst? || m.StopLater? || m.OnceLock?)
    ensures StopInv(Close(s, m))
  {
  }

  lemma {:induction false} StopOnce(s: Bus, m: Move)
    requires LockInv(s) && StopInv(s) && CanClose(s, m) && (m.OnceFlag? || m.OnceClose? || m.OnceUnlock?)
    ensures StopInv(Close(s, m))
  {
  }

  lemma {:induction false} StopClosing(s: Bus, m: Move)
    requires LockInv(s) && StopInv(s) && CanClose(s, m)
    ensures StopInv(Close(s, m))
  {
    if m.StopFirst? || m.StopLater? || m.OnceLock? {
      StopEntering(s, m);
    } else {
      StopOnce(s, m);
    }
  }

  lemma {:induction false} StopStopping(s: Bus, m: Move)
    requires LockInv(s) && StopInv(s) && CanStop(s, m)
    ensures StopInv(Stop(s, m))
  {
  }

  lemma {:induction false} StopFanning(s: Bus, m: Move)
    requires LockInv(s) && StopInv(s) && CanFanOut(s, m)
    ensures StopInv(FanOut(s, m))
  {
  }

  lemma {:induction false} StopDelivering(s: Bus, m: Move)
    requires LockInv(s) && StopInv(s) && CanDeliver(s, m)
    ensures StopInv(Deliver(s, m))
  {
  }

  lemma {:induction false} SubPublishing(s: Bus, m: Move)
    requires LockInv(s) && StopInv(s) && SubInv(s) && CanPublish(s, m)
    ensures SubInv(Publish(s, m))
  {
  }

  predicate Registers(s: Bus, m: Move) {
    CanSubscribe(s, m) && m.SubAdd? && s.callers[m.t].name !in s.names
  }

  lemma {:induction false} OnlyRegisters(s: Bus, m: Move)
    requires CanSubscribe(s, m)
    ensures var z := Subscribe(s, m);
            z.fan == s.fan && z.taken == s.taken && (!Registers(s, m) ==> z.subs == s.subs && z.names == s.names && z.nextId == s.nextId)
  {
  }

  lemma {:induction false} Registered(s: Bus, m: Move)
    requires Registers(s, m)
    ensures var z, name := Subscribe(s, m), s.callers[m.t].name;
            && z.fan == s.fan && z.nextId == s.nextId + 1 && z.names == s.names[name := s.nextId]
            && z.subs == s.subs[s.nextId := Sub(name, Upcoming(s), [], false, false, [], {})]
  {
  }

  /** Registrations survive one more. */
  lemma {:induction false} SubAdded(s: Bus, z: Bus, name: string, b: Sub)
    requires SubInv(s) && name !in s.names && b.name == name && !b.closed && !b.exited
    requires z.fan == s.fan && z.nextId == s.nextId + 1 && z.names == s.names[name := s.nextId] && z.subs == s.subs[s.nextId := b]
    ensures SubInv(z)
  {
  }

  lemma {:induction false} SubSubscribing(s: Bus, m: Move)
    requires LockInv(s) && StopInv(s) && SubInv(s) && CanSubscribe(s, m)
    ensures SubInv(Subscribe(s, m))
  {
    if Registers(s, m) {
      var name := s.callers[m.t].name;
      Registered(s, m);
      SubAdded(s, Subscribe(s, m), name, Sub(name, Upcoming(s), [], false, false, [], {}));
    } else {
      OnlyRegisters(s, m);
    }
  }

  lemma {:induction false} SubClosing(s: Bus, m: Move)
    requires LockInv(s) && StopInv(s) && SubInv(s) && CanClose(s, m)
    ensures SubInv(Close(s, m))
  {
  }

  lemma {:induction false} SubStopping(s: Bus, m: Move)
    requires LockInv(s) && StopInv(s) && SubInv(s) && CanStop(s, m)
    ensures SubInv(Stop(s, m))
  {
  }

  lemma {:induction false} SubFanning(s: Bus, m: Move)
    requires LockInv(s) && StopInv(s) && SubInv(s) && CanFanOut(s, m)
    ensures SubInv(FanOut(s, m))
  {
  }

  lemma {:induction false} DeliveredOnly(s: Bus, m: Move)
    requires SubInv(s) && CanDeliver(s, m)
    ensures var z, b := Deliver(s, m), s.subs[m.id];
            && z.subs == s.subs[m.id := Delivered(s, m)] && z.names == s.names && z.nextId == s.nextId
            && z.fan == (if m.RunSend? then Sending(s.fan.i, s.fan.todo - {m.id}) else s.fan)
            && Delivered(s, m).name == b.name && Delivered(s, m).closed == b.closed && Delivered(s, m).from == b.from
  {
  }

  lemma {:induction false} SubDelivering(s: Bus, m: Move)
    requires SubInv(s) && CanDeliver(s, m)
    ensures SubInv(Deliver(s, m))
  {
    DeliveredOnly(s, m);
    SubPatched(s, Deliver(s, m), m.id, Delivered(s, m));
  }

  /** Registrations survive a change to one subscriber that keeps its name and whether it is closed. */
  lemma {:induction false} SubPatched(s: Bus, z: Bus, id: nat, b: Sub)
    requires SubInv(s) && id in s.subs && z.subs == s.subs[id := b] && z.names == s.names && z.nextId == s.nextId
    requires b.name == s.subs[id].name && b.closed == s.subs[id].closed
    requires b.exited ==> b.closed && b.queue == []
    requires z.fan.Exited? == s.fan.Exited?
    requires z.fan.Sending? ==> s.fan.Sending? && z.fan.todo <= s.fan.todo
    ensures SubInv(z)
  {
  }

  lemma {:induction false} QueuePublishing(s: Bus, m: Move)
    requires QueueInv(s) && CanPublish(s, m)
    ensures QueueInv(Publish(s, m))
  {
  }

  lemma {:induction false} QueueFanning(s: Bus, m: Move)
    requires QueueInv(s) && CanFanOut(s, m)
    ensures QueueInv(FanOut(s, m)) && FanOut(s, m).accepted == s.accepted && FanOut(s, m).stopped == s.stopped
  {
  }

  /** All other moves leave the publisher channel alone. */
  ghost predicate QueueAlone(s: Bus, z: Bus) {
    && z.queue == s.queue && z.taken == s.taken && z.accepted == s.accepted && (s.stopped ==> z.stopped)
    && (z.fan == s.fan || (s.fan.Sending? && z.fan.Sending? && z.fan.i == s.fan.i))
  }

  lemma {:induction false} QueueSubscribing(s: Bus, m: Move)
    requires CanSubscribe(s, m)
    ensures QueueAlone(s, Subscribe(s, m))
  {
  }

  lemma {:induction false} QueueClosing(s: Bus, m: Move)
    requires CanClose(s, m)
    ensures QueueAlone(s, Close(s, m))
  {
  }

  lemma {:induction false} QueueStopping(s: Bus, m: Move)
    requires CanStop(s, m)
    ensures QueueAlone(s, Stop(s, m))
  {
  }

  lemma {:induction false} QueueDelivering(s: Bus, m: Move)
    requires CanDeliver(s, m)
    ensures QueueAlone(s, Deliver(s, m))
  {
  }

  lemma {:induction false} QueueRest(s: Bus, m: Move)
    requires Enabled(s, m) && !Publishing(m) && !Fanning(m)
    ensures QueueAlone(s, Apply(s, m))
  {
    if Subscribing(m) {
      QueueSubscribing(s, m);
    } else if Closing(m) {
      QueueClosing(s, m);
    } else if Stopping(m) {
      QueueStopping(s, m);
    } else {
      QueueDelivering(s, m);
    }
  }

  // ---------------------------------------------------------------- nothing lost unseen

  /** Offering chunk `i` to a subscriber extends its record by exactly that chunk. */
  lemma {:induction false} OfferOne(b: Sub, i: nat)
    requires SubLog(b, i)
    ensures SubLog(if |b.queue| < QUEUE then b.(queue := b.queue + [i]) else b.(lost := b.lost + {i}), i + 1)
  {
    if |b.queue| < QUEUE {
      var c := b.(queue := b.queue + [i]);
      assert Log(c) == Log(b) + [i];
      assert i in Log(c);
      assert forall j :: j in Log(b) ==> j in Log(c);
      assert forall j :: 0 <= j < |Log(b)| ==> Log(b)[j] in Log(b);
    } else {
      var c := b.(lost := b.lost + {i});
      assert Log(c) == Log(b);
    }
  }

  /** Handling the oldest queued chunk moves it within the record. */
  lemma {:induction false} HandleOne(b: Sub, upto: nat)
    requires SubLog(b, upto) && b.queue != []
    ensures SubLog(b.(handled := b.handled + [b.queue[0]], queue := b.queue[1..]), upto)
  {
    var c := b.(handled := b.handled + [b.queue[0]], queue := b.queue[1..]);
    assert Log(c) == Log(b);
  }

  lemma {:induction false} LogPublishing(s: Bus, m: Move)
    requires LogInv(s) && CanPublish(s, m)
    ensures LogInv(Publish(s, m))
  {
    var z := Publish(s, m);
    forall id | id in z.subs ensures SubLog(z.subs[id], Offered(z, id)) {
      assert z.subs[id] == s.subs[id];
    }
  }

  lemma {:induction false} LogClosing(s: Bus, m: Move)
    requires LogInv(s) && CanClose(s, m)
    ensures LogInv(Close(s, m))
  {
    var z := Close(s, m);
    forall id | id in z.subs ensures SubLog(z.subs[id], Offered(z, id)) {
      assert z.subs[id] == s.subs[id];
    }
  }

  lemma {:induction false} OfferedSame(s: Bus, z: Bus, id: nat)
    requires z.fan == s.fan && z.taken == s.taken
    ensures Offered(z, id) == Offered(s, id)
  {
  }

  /** Nothing has been offered yet to a subscriber that is new. */
  lemma {:induction false} LogNew(s: Bus, name: string)
    requires LockInv(s) && SubInv(s) && QueueInv(s) && s.writer.Some?
    ensures SubLog(Sub(name, Upcoming(s), [], false, false, [], {}), Offered(s, s.nextId))
  {
  }

  lemma {:induction false} LogSubscribing(s: Bus, m: Move)
    requires LockInv(s) && SubInv(s) && QueueInv(s) && LogInv(s) && CanSubscribe(s, m)
    ensures LogInv(Subscribe(s, m))
  {
    var z := Subscribe(s, m);
    OnlyRegisters(s, m);
    if Registers(s, m) {
      Registered(s, m);
      LogNew(s, s.callers[m.t].name);
    }
    forall id | id in z.subs ensures SubLog(z.subs[id], Offered(z, id)) {
      OfferedSame(s, z, id);
    }
  }

  lemma {:induction false} LogStopping(s: Bus, m: Move)
    requires LockInv(s) && SubInv(s) && QueueInv(s) && LogInv(s) && CanStop(s, m)
    ensures LogInv(Stop(s, m))
  {
    var z := Stop(s, m);
    forall id | id in z.subs ensures SubLog(z.subs[id], Offered(z, id)) {
      assert id in s.subs && Log(z.subs[id]) == Log(s.subs[id]);
    }
  }

  lemma {:induction false} LogFanning(s: Bus, m: Move)
    requires LockInv(s) && SubInv(s) && QueueInv(s) && LogInv(s) && CanFanOut(s, m)
    ensures LogInv(FanOut(s, m))
  {
    var z := FanOut(s, m);
    forall id | id in z.subs ensures SubLog(z.subs[id], Offered(z, id)) {
      assert id in s.subs && SubLog(s.subs[id], Offered(s, id));
      if m.RunRLock? {
        assert s.names[s.subs[id].name] == id;
      }
    }
  }

  /** The record of the subscriber a delivery touches. */
  lemma {:induction false} LogDelivered(s: Bus, m: Move)
    requires SubInv(s) && QueueInv(s) && CanDeliver(s, m) && SubLog(s.subs[m.id], Offered(s, m.id))
    ensures SubLog(Delivered(s, m), if m.RunSend? then s.fan.i + 1 else Offered(s, m.id))
  {
    if m.RunSend? {
      OfferOne(s.subs[m.id], s.fan.i);
    } else if m.DispRecv? {
      HandleOne(s.subs[m.id], Offered(s, m.id));
    } else {
      assert Log(Delivered(s, m)) == Log(s.subs[m.id]);
    }
  }

  lemma {:induction false} LogDelivering(s: Bus, m: Move)
    requires SubInv(s) && QueueInv(s) && LogInv(s) && CanDeliver(s, m)
    ensures LogInv(Deliver(s, m))
  {
    DeliveredOnly(s, m);
    LogDelivered(s, m);
    LogPatched(s, Deliver(s, m), m.id, Delivered(s, m));
  }

  /** The other records survive a change to one subscriber. */
  lemma {:induction false} LogPatched(s: Bus, z: Bus, id: nat, b: Sub)
    requires LogInv(s) && id in s.subs && z.subs == s.subs[id := b] && z.taken == s.taken && SubLog(b, Offered(z, id))
    requires z.fan == s.fan || (s.fan.Sending? && z.fan == Sending(s.fan.i, s.fan.todo - {id}))
    ensures LogInv(z)
  {
    forall k | k in z.subs ensures SubLog(z.subs[k], Offered(z, k)) {
      if k != id {
        assert z.subs[k] == s.subs[k] && Offered(z, k) == Offered(s, k);
      }
    }
  }

  lemma {:induction false} InvPublish(s: Bus, m: Move)
    requires Inv(s) && CanPublish(s, m)
    ensures Inv(Publish(s, m))
  {
    PublishNoPanic(s, m);
    LockPublishing(s, m);
    StopPublishing(s, m);
    SubPublishing(s, m);
    QueuePublishing(s, m);
    LogPublishing(s, m);
  }

  lemma {:induction false} InvSubscribe(s: Bus, m: Move)
    requires Inv(s) && CanSubscribe(s, m)
    ensures Inv(Subscribe(s, m))
  {
    LockSubscribing(s, m);
    StopSubscribing(s, m);
    SubSubscribing(s, m);
    QueueSubscribing(s, m);
    LogSubscribing(s, m);
  }

  lemma {:induction false} InvClose(s: Bus, m: Move)
    requires Inv(s) && CanClose(s, m)
    ensures Inv(Close(s, m))
  {
    CloseNoPanic(s, m);
    LockClosing(s, m);
    StopClosing(s, m);
    SubClosing(s, m);
    QueueClosing(s, m);
    LogClosing(s, m);
  }

  lemma {:induction false} InvStop(s: Bus, m: Move)
    requires Inv(s) && CanStop(s, m)
    ensures Inv(Stop(s, m))
  {
    StopNoPanic(s, m);
    LockStopping(s, m);
    StopStopping(s, m);
    SubStopping(s, m);
    QueueStopping(s, m);
    LogStopping(s, m);
  }

  lemma {:induction false} InvFanOut(s: Bus, m: Move)
    requires Inv(s) && CanFanOut(s, m)
    ensures Inv(FanOut(s, m))
  {
    LockFanning(s, m);
    StopFanning(s, m);
    SubFanning(s, m);
    QueueFanning(s, m);
    LogFanning(s, m);
  }

  lemma {:induction false} InvDeliver(s: Bus, m: Move)
    requires Inv(s) && CanDeliver(s, m)
    ensures Inv(Deliver(s, m))
  {
    DeliverNoPanic(s, m);
    LockDelivering(s, m);
    StopDelivering(s, m);
    SubDelivering(s, m);
    QueueDelivering(s, m);
    LogDelivering(s, m);
  }

  /** Every move of every goroutine keeps the invariant. */
  lemma {:induction false} InvStep(s: Bus, m: Move)
    requires Inv(s) && Enabled(s, m)
    ensures Inv(Apply(s, m))
  {
    if Publishing(m) {
      InvPublish(s, m);
    } else if Subscribing(m) {
      InvSubscribe(s, m);
    } else if Closing(m) {
      InvClose(s, m);
    } else if Stopping(m) {
      InvStop(s, m);
    } else if Fanning(m) {
      InvFanOut(s, m);
    } else {
      InvDeliver(s, m);
    }
  }

  lemma {:induction false} InvRun(s: Bus, ms: seq<Move>)
    requires Inv(s) && Legal(s, ms)
    ensures Inv(After(s, ms))
    decreases ms
  {
    if ms != [] {
      InvStep(s, ms[0]);
      InvRun(Apply(s, ms[0]), ms[1..]);
    }
  }

  // ---------------------------------------------------------------- theorems over whole runs

  /**
   In every run: no send on a closed channel and no channel closed twice, and each subscriber
   has handled chunks accepted before, in acceptance order, none twice.
   */
  lemma {:induction false} BusSafe(cap: nat, ms: seq<Move>)
    requires Legal(Start(cap), ms)
    ensures var z := After(Start(cap), ms);
            && !z.panicked
            && (forall id :: id in z.subs ==>
                  Increasing(z.subs[id].handled) && forall i :: i in z.subs[id].handled ==> z.subs[id].from <= i < |z.accepted|)
  {
    InvRun(Start(cap), ms);
    var z := After(Start(cap), ms);
    forall id | id in z.subs
      ensures Increasing(z.subs[id].handled) && forall i :: i in z.subs[id].handled ==> z.subs[id].from <= i < |z.accepted|
    {
      var b := z.subs[id];
      assert SubLog(b, Offered(z, id));
      assert Offered(z, id) <= |z.accepted|;
      assert forall i :: 0 <= i < |b.handled| ==> b.handled[i] == Log(b)[i];
      assert forall i :: i in b.handled ==> i in Log(b);
    }
  }

  lemma {:induction false} PublishersLoseNothing(s: Bus, m: Move, id: nat)
    requires CanPublish(s, m) && id in s.subs
    ensures Publish(s, m).subs == s.subs
  {
  }

  lemma {:induction false} ClosersLoseNothing(s: Bus, m: Move)
    requires CanClose(s, m)
    ensures Close(s, m).subs == s.subs
  {
  }

  lemma {:induction false} FanLosesNothing(s: Bus, m: Move, id: nat)
    requires CanFanOut(s, m) && id in s.subs
    ensures FanOut(s, m).subs == s.subs
  {
  }

  lemma {:induction false} SubscribersLoseNothing(s: Bus, m: Move, id: nat)
    requires SubInv(s) && CanSubscribe(s, m) && id in s.subs
    ensures id in Subscribe(s, m).subs && Subscribe(s, m).subs[id].lost == s.subs[id].lost
    ensures Subscribe(s, m).subs[id].from == s.subs[id].from
  {
  }

  lemma {:induction false} StoppersLoseNothing(s: Bus, m: Move, id: nat)
    requires CanStop(s, m) && id in s.subs
    ensures id in Stop(s, m).subs && Stop(s, m).subs[id].lost == s.subs[id].lost
    ensures Stop(s, m).subs[id].from == s.subs[id].from
  {
  }

  lemma {:induction false} DeliveredLoses(s: Bus, m: Move, i: nat)
    requires CanDeliver(s, m) && i !in s.subs[m.id].lost && |s.subs[m.id].queue| <= QUEUE
    ensures i in Delivered(s, m).lost <==> m.RunSend? && s.fan.i == i && |s.subs[m.id].queue| == QUEUE
  {
  }

  lemma {:induction false} DeliveryLoses(s: Bus, m: Move, id: nat, i: nat)
    requires CanDeliver(s, m) && id in s.subs && i !in s.subs[id].lost && |s.subs[id].queue| <= QUEUE
    ensures id in Deliver(s, m).subs
    ensures i in Deliver(s, m).subs[id].lost <==>
              m == RunSend(id) && !s.subs[id].closed && s.fan.i == i && |s.subs[id].queue| == QUEUE
  {
    if m.id == id {
      DeliveredLoses(s, m, i);
    }
  }

  lemma {:induction false} OthersLoseNothing(s: Bus, m: Move, id: nat)
    requires SubInv(s) && Enabled(s, m) && !Delivering(m) && id in s.subs
    ensures id in Apply(s, m).subs && Apply(s, m).subs[id].lost == s.subs[id].lost
  {
    if Publishing(m) {
      PublishersLoseNothing(s, m, id);
    } else if Closing(m) {
      ClosersLoseNothing(s, m);
    } else if Fanning(m) {
      FanLosesNothing(s, m, id);
    } else if Subscribing(m) {
      SubscribersLoseNothing(s, m, id);
    } else {
      StoppersLoseNothing(s, m, id);
    }
  }

  lemma {:induction false} LossExactly(s: Bus, m: Move, id: nat, i: nat)
    requires SubInv(s) && Enabled(s, m) && id in s.subs && i !in s.subs[id].lost && |s.subs[id].queue| <= QUEUE
    ensures id in Apply(s, m).subs
    ensures i in Apply(s, m).subs[id].lost <==>
              m == RunSend(id) && !s.subs[id].closed && s.fan.i == i && |s.subs[id].queue| == QUEUE
  {
    if Delivering(m) {
      DeliveryLoses(s, m, id, i);
    } else {
      OthersLoseNothing(s, m, id);
    }
  }

  lemma {:induction false} QueueBounded(s: Bus, id: nat)
    requires LogInv(s) && id in s.subs
    ensures |s.subs[id].queue| <= QUEUE
  {
    assert SubLog(s.subs[id], Offered(s, id));
  }

  /** A chunk is lost to a subscriber only when it is offered while the subscriber's queue is full. */
  lemma {:induction false} LossNeedsFullQueue(s: Bus, m: Move, id: nat, i: nat)
    requires Inv(s) && Enabled(s, m) && id in s.subs && i !in s.subs[id].lost
    ensures id in Apply(s, m).subs
    ensures i in Apply(s, m).subs[id].lost <==>
              m == RunSend(id) && !s.subs[id].closed && s.fan.i == i && |s.subs[id].queue| == 256
  {
    QueueBounded(s, id);
    LossExactly(s, m, id, i);
  }

  /** A subscriber never goes away, and where its record starts never changes. */
  lemma {:induction false} FromKept(s: Bus, m: Move, id: nat)
    requires SubInv(s) && Enabled(s, m) && id in s.subs
    ensures id in Apply(s, m).subs && Apply(s, m).subs[id].from == s.subs[id].from
  {
    if Publishing(m) {
      PublishersLoseNothing(s, m, id);
    } else if Closing(m) {
      ClosersLoseNothing(s, m);
    } else if Fanning(m) {
      FanLosesNothing(s, m, id);
    } else if Subscribing(m) {
      SubscribersLoseNothing(s, m, id);
    } else if Stopping(m) {
      StoppersLoseNothing(s, m, id);
    } else {
      FromDelivered(s, m, id);
    }
  }

  lemma {:induction false} FromDelivered(s: Bus, m: Move, id: nat)
    requires CanDeliver(s, m) && id in s.subs
    ensures id in Deliver(s, m).subs && Deliver(s, m).subs[id].from == s.subs[id].from
  {
  }

  lemma {:induction false} FromRun(s: Bus, ms: seq<Move>, id: nat)
    requires Inv(s) && Legal(s, ms) && id in s.subs
    ensures id in After(s, ms).subs && After(s, ms).subs[id].from == s.subs[id].from
    decreases ms
  {
    if ms != [] {
      FromKept(s, ms[0], id);
      InvStep(s, ms[0]);
      FromRun(Apply(s, ms[0]), ms[1..], id);
    }
  }

  lemma {:induction false} FromNow(s: Bus, t: nat)
    requires QueueInv(s) && CanSubscribe(s, SubAdd(t)) && s.callers[t].name !in s.names
    ensures var z := Subscribe(s, SubAdd(t)); s.nextId in z.subs && z.subs[s.nextId].from <= |s.accepted|
  {
  }

  /**
   Whatever happens after a new subscription: every chunk accepted after it and fanned out is
   either in the subscriber's record, once, or among those it lost to a full queue.
   */
  lemma {:induction false} OfferedFromSubscription(s: Bus, t: nat, ms: seq<Move>)
    requires Inv(s) && Enabled(s, SubAdd(t)) && s.callers[t].name !in s.names && Legal(Apply(s, SubAdd(t)), ms)
    ensures var z := After(Apply(s, SubAdd(t)), ms);
            && s.nextId in z.subs
            && forall i :: |s.accepted| <= i < Offered(z, s.nextId) ==> (i in Log(z.subs[s.nextId])) != (i in z.subs[s.nextId].lost)
  {
    var y := Apply(s, SubAdd(t));
    FromNow(s, t);
    InvStep(s, SubAdd(t));
    FromRun(y, ms, s.nextId);
    InvRun(y, ms);
    var z := After(y, ms);
    assert SubLog(z.subs[s.nextId], Offered(z, s.nextId));
  }

  /**
   When a Stop call returns: the publisher channel is closed and drained, every accepted chunk
   has been fanned out, and every subscriber has handled all it was offered but what it lost
   to a full queue.
   */
  lemma {:induction false} StopDrains(cap: nat, ms: seq<Move>, t: nat)
    requires Legal(Start(cap), ms) && Enabled(After(Start(cap), ms), StopReturn(t))
    ensures var z := After(Start(cap), ms);
            && z.pubClosed && z.queue == [] && z.taken == |z.accepted| && z.fan.Exited?
            && (forall id :: id in z.subs ==>
                  var b := z.subs[id];
                  b.queue == [] && forall i :: b.from <= i < |z.accepted| ==> (i in b.handled) != (i in b.lost))
  {
    InvRun(Start(cap), ms);
    var z := After(Start(cap), ms);
    forall id | id in z.subs
      ensures var b := z.subs[id];
              b.queue == [] && forall i :: b.from <= i < |z.accepted| ==> (i in b.handled) != (i in b.lost)
    {
      var b := z.subs[id];
      assert SubLog(b, Offered(z, id)) && b.exited;
      assert Log(b) == b.handled;
    }
  }

  /** When a Stop call leaves its closing loop, no subscriber is registered and all there are are closed. */
  lemma {:induction false} StopClosesAll(s: Bus, t: nat)
    requires Inv(s) && Enabled(s, StopUnlock(t))
    ensures var z := Apply(s, StopUnlock(t)); z.names == map[] && forall id :: id in z.subs ==> z.subs[id].closed
  {
    var z := Apply(s, StopUnlock(t));
    forall id | id in z.subs
      ensures z.subs[id].closed
    {
      assert s.subs[id].name !in s.names;
    }
  }

  lemma {:induction false} PublishersStopped(s: Bus, m: Move)
    requires StopInv(s) && CanPublish(s, m) && s.stopped
    ensures Publish(s, m).accepted == s.accepted && Publish(s, m).stopped
  {
  }

  /** Once a Stop call is past closing, nothing more is ever accepted. */
  lemma {:induction false} NothingAfterStop(s: Bus, m: Move)
    requires Inv(s) && Enabled(s, m) && s.stopped
    ensures Apply(s, m).accepted == s.accepted && Apply(s, m).stopped
  {
    if Publishing(m) {
      PublishersStopped(s, m);
    } else if Fanning(m) {
      QueueFanning(s, m);
    } else {
      QueueRest(s, m);
    }
  }
}
