/**
 The event loop's functor queue and its wake-up protocol: other threads push a functor
 and then write an eventfd; the loop blocks in poll, reads the eventfd when it is
 readable, and runs the functors in batches. Every read or write of a shared variable
 is one atomic step.
 */
module EventLoops {

  type Functor = nat

  /** A counter of an eventfd never exceeds this value; a write that would is refused. */
  const EVENTFD_MAX: nat := 0xFFFF_FFFF_FFFF_FFFE

  /** Where the loop's own thread is.
      `Outside`: not in `loop()`; `Testing`: at `while (!quit_)`; `Polling`: in poll;
      `Handling`: in the callbacks of the active channels; `Entering`: in
      `doPendingFunctors`, flag set, batch not taken yet; `Calling`: running the batch;
      `Leaving`: batch done, flag still set. */
  datatype Pc = Outside | Testing | Polling | Handling | Entering | Calling(batch: seq<Functor>) | Leaving

  /** `ownPush`: the loop's thread is inside `queueInLoop`, between push and wake-up test.
      `midPush`, `midQuit`: other threads between push, or `quit_ = true`, and their write.
      `enqueued`, `executed`: history. */
  datatype Loop = Loop(
    pc: Pc, ownPush: bool, pending: seq<Functor>, counter: nat, calling: bool, quit: bool,
    midPush: nat, midQuit: nat, enqueued: seq<Functor>, executed: seq<Functor>)

  function Init(): Loop { Loop(Outside, false, [], 0, false, false, 0, 0, [], []) }

  function Written(counter: nat): nat { if counter < EVENTFD_MAX then counter + 1 else counter }

  datatype Event =
    // the loop's own thread
    | StartLoop
    | TestQuit
    | PollReturns
    | ReadEventfd
    | EventsDone
    | TakeBatch
    | RunFunctor
    | BatchDone
    | ClearCalling
    | OwnPush(f: Functor)
    | OwnWakeTest
    | OwnQuit
    // other threads
    | OtherPush(f: Functor)
    | OtherWrite
    | OtherQuit
    | OtherQuitWrite

  /** User code runs on the loop's thread outside `loop()`, in a channel callback and in a
      functor; there it may call `queueInLoop` or `quit`. */
  predicate UserCode(s: Loop) {
    !s.ownPush && (s.pc.Outside? || s.pc.Handling? || s.pc.Calling?)
  }

  predicate Enabled(s: Loop, e: Event) {
    match e
    case StartLoop => s.pc.Outside? && !s.ownPush
    case TestQuit => s.pc.Testing?
    case PollReturns => s.pc.Polling?
    case ReadEventfd => s.pc.Handling? && !s.ownPush && s.counter > 0
    case EventsDone => s.pc.Handling? && !s.ownPush
    case TakeBatch => s.pc.Entering?
    case RunFunctor => s.pc.Calling? && s.pc.batch != [] && !s.ownPush
    case BatchDone => s.pc.Calling? && s.pc.batch == [] && !s.ownPush
    case ClearCalling => s.pc.Leaving?
    case OwnPush(_) => UserCode(s)
    case OwnWakeTest => s.ownPush
    case OwnQuit => UserCode(s)
    case OtherPush(_) => true
    case OtherWrite => s.midPush > 0
    case OtherQuit => true
    case OtherQuitWrite => s.midQuit > 0
  }

  function Push(s: Loop, f: Functor): Loop {
    s.(pending := s.pending + [f], enqueued := s.enqueued + [f])
  }

  /** A functor counts as executed from the moment its call begins, so the functor that is
      running may itself queue others. */
  function Apply(s: Loop, e: Event): Loop
    requires Enabled(s, e)
  {
    match e
    case StartLoop => s.(pc := Testing, quit := false)
    case TestQuit => s.(pc := if s.quit then Outside else Polling)
    case PollReturns => s.(pc := Handling)
    case ReadEventfd => s.(counter := 0)
    case EventsDone => s.(pc := Entering, calling := true)
    case TakeBatch => s.(pc := Calling(s.pending), pending := [])
    case RunFunctor => s.(pc := Calling(s.pc.batch[1..]), executed := s.executed + [s.pc.batch[0]])
    case BatchDone => s.(pc := Leaving)
    case ClearCalling => s.(pc := Testing, calling := false)
    case OwnPush(f) => Push(s, f).(ownPush := true)
    case OwnWakeTest => s.(ownPush := false, counter := if s.calling then Written(s.counter) else s.counter)
    case OwnQuit => s.(quit := true)
    case OtherPush(f) => Push(s, f).(midPush := s.midPush + 1)
    case OtherWrite => s.(midPush := s.midPush - 1, counter := Written(s.counter))
    case OtherQuit => s.(quit := true, midQuit := s.midQuit + 1)
    case OtherQuitWrite => s.(midQuit := s.midQuit - 1, counter := Written(s.counter))
  }

  // ---------------------------------------------------------------- invariant

  /** Something queued is noticed: poll returns at once, or a thread is about to make it. */
  predicate Covered(s: Loop) {
    s.pending != [] ==> s.counter > 0 || s.midPush > 0
  }

  /** A request to quit made by another thread is noticed. */
  predicate QuitCovered(s: Loop) {
    s.quit ==> s.counter > 0 || s.midQuit > 0
  }

  function Rest(s: Loop): seq<Functor> { if s.pc.Calling? then s.pc.batch else [] }

  /** What was queued is what has run, what is left of the batch and what is queued still. */
  predicate InOrder(s: Loop) {
    s.executed + Rest(s) + s.pending == s.enqueued
  }

  predicate Inv(s: Loop) {
    && InOrder(s) && s.counter <= EVENTFD_MAX
    && (s.calling <==> s.pc.Entering? || s.pc.Calling? || s.pc.Leaving?)
    && (s.ownPush ==> s.pc.Outside? || s.pc.Handling? || s.pc.Calling?)
    && (s.pc.Calling? || s.pc.Leaving? ==> Covered(s) || s.ownPush)
    && (s.pc.Outside? || s.pc.Testing? || s.pc.Polling? ==> Covered(s))
    && (s.pc.Polling? ==> QuitCovered(s))
  }

  /** The loop's thread must not queue for itself outside `loop()`: there no wake-up is
      written (see `MissedIff`). */
  predicate OwnPushInside(s: Loop, e: Event) {
    e.OwnPush? ==> !s.pc.Outside?
  }

  lemma StepKeepsOrder(s: Loop, e: Event)
    requires InOrder(s) && Enabled(s, e)
    ensures InOrder(Apply(s, e))
  {
    var q := s.executed + Rest(s);
    match e
    case TakeBatch => assert s.executed + s.pending + [] == s.executed + [] + s.pending;
    case RunFunctor =>
      assert (s.executed + [s.pc.batch[0]]) + s.pc.batch[1..] == s.executed + s.pc.batch;
    case OwnPush(f) => assert q + (s.pending + [f]) == (q + s.pending) + [f];
    case OtherPush(f) => assert q + (s.pending + [f]) == (q + s.pending) + [f];
    case _ => assert s.executed + [] + s.pending == s.executed + s.pending;
  }

  lemma StepKeepsInv(s: Loop, e: Event)
    requires Inv(s) && Enabled(s, e) && OwnPushInside(s, e)
    ensures Inv(Apply(s, e))
  {
    StepKeepsOrder(s, e);
  }

  // ---------------------------------------------------------------- whole runs

  predicate Legal(s0: Loop, es: seq<Event>)
    decreases |es|, 0
  {
    es == [] || (Legal(s0, es[..|es| - 1]) && Enabled(Exec(s0, es[..|es| - 1]), es[|es| - 1]))
  }

  function Exec(s0: Loop, es: seq<Event>): Loop
    requires Legal(s0, es)
    decreases |es|, 1
  {
    if es == [] then s0 else Apply(Exec(s0, es[..|es| - 1]), es[|es| - 1])
  }

  /** The loop's own thread queues only inside `loop()`. */
  predicate QueuesInside(s0: Loop, es: seq<Event>)
    requires Legal(s0, es)
  {
    es == [] || (QueuesInside(s0, es[..|es| - 1]) && OwnPushInside(Exec(s0, es[..|es| - 1]), es[|es| - 1]))
  }

  lemma {:induction false} RunKeepsInv(s0: Loop, es: seq<Event>)
    requires Inv(s0) && Legal(s0, es) && QueuesInside(s0, es)
    ensures Inv(Exec(s0, es))
  {
    if es != [] {
      RunKeepsInv(s0, es[..|es| - 1]);
      StepKeepsInv(Exec(s0, es[..|es| - 1]), es[|es| - 1]);
    }
  }

  predicate IsQuit(e: Event) { e.OwnQuit? || e.OtherQuit? }

  /** Somebody has called `quit` since `loop()` was entered last. */
  predicate AskedSinceStart(es: seq<Event>) {
    es != [] && !es[|es| - 1].StartLoop? && (IsQuit(es[|es| - 1]) || AskedSinceStart(es[..|es| - 1]))
  }

  lemma {:induction false} FlagIsRequest(es: seq<Event>)
    requires Legal(Init(), es)
    ensures Exec(Init(), es).quit <==> AskedSinceStart(es)
  {
    if es != [] {
      FlagIsRequest(es[..|es| - 1]);
      StepOnFlag(Exec(Init(), es[..|es| - 1]), es[|es| - 1]);
    }
  }

  lemma StepOnFlag(s: Loop, e: Event)
    requires Enabled(s, e)
    ensures Apply(s, e).quit <==> !e.StartLoop? && (IsQuit(e) || s.quit)
    ensures Apply(s, e).pc.Outside? <==> if s.pc.Outside? then !e.StartLoop? else e.TestQuit? && s.quit
  {
  }

  /** Whatever the interleaving, when the loop is in poll and the eventfd does not wake it,
      nothing is queued and nobody has asked it to quit since it was started, except by a
      thread that is on its way to write the eventfd. */
  lemma NoMissedWakeup(es: seq<Event>)
    requires Legal(Init(), es) && QueuesInside(Init(), es)
    requires Exec(Init(), es).pc.Polling? && Exec(Init(), es).counter == 0
    ensures var s := Exec(Init(), es);
      && (s.pending == [] || s.midPush > 0)
      && (!AskedSinceStart(es) || s.midQuit > 0)
  {
    RunKeepsInv(Init(), es);
    FlagIsRequest(es);
  }

  /** Functors run in the order in which they were queued, each once, whoever queued them and
      wherever the loop was. */
  lemma {:induction false} RunsInQueueOrder(es: seq<Event>)
    requires Legal(Init(), es)
    ensures var s := Exec(Init(), es); s.executed + Rest(s) + s.pending == s.enqueued
  {
    if es != [] {
      RunsInQueueOrder(es[..|es| - 1]);
      StepKeepsOrder(Exec(Init(), es[..|es| - 1]), es[|es| - 1]);
    }
  }

  // ---------------------------------------------------------------- where a promise fails

  /** The step that the loop's thread takes if it is left alone. */
  function NextOwnStep(s: Loop): (e: Event)
    requires !s.ownPush && !s.pc.Polling?
    ensures Enabled(s, e)
  {
    match s.pc
    case Outside => StartLoop
    case Testing => TestQuit
    case Handling => EventsDone
    case Entering => TakeBatch
    case Calling(batch) => if batch != [] then RunFunctor else BatchDone
    case Leaving => ClearCalling
  }

  function StepsToPoll(s: Loop): nat {
    match s.pc
    case Polling => 0
    case Testing => if s.quit then 3 else 1
    case Outside => 2
    case Leaving => 4
    case Calling(batch) => 5 + |batch|
    case Entering => 6 + |s.pending|
    case Handling => 7 + |s.pending|
  }

  /** The loop the next time it is in poll, if its thread is left alone; a loop that is asked
      to quit is entered again. */
  function Settle(s: Loop): (r: Loop)
    requires !s.ownPush
    ensures r.pc.Polling?
    decreases StepsToPoll(s)
  {
    if s.pc.Polling? then s else Settle(Apply(s, NextOwnStep(s)))
  }

  lemma {:induction false} SettleTakesOneBatch(s: Loop)
    requires !s.ownPush
    ensures var r := Settle(s);
      && r.counter == s.counter && r.midPush == s.midPush
      && r.pending == if s.pc.Handling? || s.pc.Entering? then [] else s.pending
    decreases StepsToPoll(s)
  {
    if !s.pc.Polling? { SettleTakesOneBatch(Apply(s, NextOwnStep(s))); }
  }

  /** The loop sleeps although something is queued, and nobody is about to wake it. */
  predicate Missed(s: Loop) {
    s.pc.Polling? && s.pending != [] && s.counter == 0 && s.midPush == 0
  }

  /** Of all the places where user code runs on the loop's thread, outside `loop()` is the
      one where a functor that it queues is missed, and there it is missed exactly when
      nobody else has provided for a wake-up. */
  lemma MissedIff(s: Loop, f: Functor)
    requires Inv(s) && UserCode(s)
    ensures Missed(Settle(Apply(Apply(s, OwnPush(f)), OwnWakeTest))) <==>
      s.pc.Outside? && s.counter == 0 && s.midPush == 0
  {
    SettleTakesOneBatch(Apply(Apply(s, OwnPush(f)), OwnWakeTest));
  }

  /** The first test of the loop condition after a call of `quit` ends the loop exactly when
      the call was not made outside `loop()`: entering the loop forgets it. */
  lemma QuitIsHonouredIff(s: Loop, q: Event, es: seq<Event>)
    requires IsQuit(q) && Enabled(s, q) && Legal(Apply(s, q), es)
    requires forall e :: e in es ==> !IsQuit(e) && !e.TestQuit?
    requires Enabled(Exec(Apply(s, q), es), TestQuit)
    ensures Apply(Exec(Apply(s, q), es), TestQuit).pc.Outside? <==> !s.pc.Outside?
  {
    RequestStays(Apply(s, q), es);
  }

  lemma {:induction false} RequestStays(s: Loop, es: seq<Event>)
    requires s.quit && Legal(s, es)
    requires forall e :: e in es ==> !IsQuit(e) && !e.TestQuit?
    ensures var r := Exec(s, es); if s.pc.Outside? then r.pc.Outside? || !r.quit else !r.pc.Outside? && r.quit
  {
    if es != [] {
      RequestStays(s, es[..|es| - 1]);
      StepOnFlag(Exec(s, es[..|es| - 1]), es[|es| - 1]);
    }
  }

  // ---------------------------------------------------------------- the eventfd

  /** The steps that write the eventfd: those of other threads, and that of the loop's own thread
      only while it runs functors. */
  predicate WritesEventfd(s: Loop, e: Event) {
    e.OtherWrite? || e.OtherQuitWrite? || (e.OwnWakeTest? && s.calling)
  }

  /** A write makes the eventfd readable, adding 1 while there is room; reading it clears it; no
      other step touches it. */
  lemma CounterDecides(s: Loop, e: Event)
    requires Enabled(s, e) && s.counter <= EVENTFD_MAX
    ensures var r := Apply(s, e);
      r.counter ==
        if e.ReadEventfd? then 0
        else if WritesEventfd(s, e) then (if s.counter == EVENTFD_MAX then s.counter else s.counter + 1)
        else s.counter
  {
  }

  /** What is queued while channels are being handled is run before the next poll. */
  lemma {:induction false} SettleRunsAll(s: Loop)
    requires !s.ownPush && InOrder(s)
    ensures var r := Settle(s); InOrder(r) && r.enqueued == s.enqueued
    ensures s.pc.Handling? ==> Settle(s).executed == s.enqueued
    decreases StepsToPoll(s)
  {
    if !s.pc.Polling? {
      StepKeepsOrder(s, NextOwnStep(s));
      SettleRunsAll(Apply(s, NextOwnStep(s)));
    }
    SettleTakesOneBatch(s);
  }

  /** A loop that has read its eventfd and is then left alone runs all that is queued and sleeps:
      it is in poll, and nothing wakes it. */
  lemma SleepsAfterReading(s: Loop)
    requires Inv(s) && Enabled(s, ReadEventfd)
    ensures var r := Settle(Apply(s, ReadEventfd));
      r.pc.Polling? && r.counter == 0 && r.pending == [] && r.executed == s.enqueued
  {
    SettleTakesOneBatch(Apply(s, ReadEventfd));
    SettleRunsAll(Apply(s, ReadEventfd));
  }

  lemma Extend(s0: Loop, es: seq<Event>, e: Event)
    requires Legal(s0, es) && Enabled(Exec(s0, es), e)
    ensures Legal(s0, es + [e]) && Exec(s0, es + [e]) == Apply(Exec(s0, es), e)
    ensures QueuesInside(s0, es + [e]) <==> QueuesInside(s0, es) && OwnPushInside(Exec(s0, es), e)
  {
    assert (es + [e])[..|es|] == es;
  }

  /** A run in which the wake-up is missed: queue on the loop's thread, then call `loop()`. */
  lemma WakeupMissedOutsideLoop(f: Functor)
    ensures var es := [OwnPush(f)] + [OwnWakeTest] + [StartLoop] + [TestQuit];
      && Legal(Init(), es) && !QueuesInside(Init(), es)
      && var s := Exec(Init(), es); s.pc.Polling? && s.counter == 0 && s.pending == [f] && s.midPush == 0
  {
    assert [] + [OwnPush(f)] == [OwnPush(f)];
    Extend(Init(), [], OwnPush(f));
    Extend(Init(), [OwnPush(f)], OwnWakeTest);
    Extend(Init(), [OwnPush(f)] + [OwnWakeTest], StartLoop);
    Extend(Init(), [OwnPush(f)] + [OwnWakeTest] + [StartLoop], TestQuit);
  }

  /** A run in which a request is forgotten: call `quit`, then `loop()`. */
  lemma QuitForgottenOutsideLoop()
    ensures var es := [OwnQuit] + [StartLoop] + [TestQuit];
      && Legal(Init(), es) && QueuesInside(Init(), es)
      && var s := Exec(Init(), es); s.pc.Polling? && s.counter == 0 && s.midQuit == 0 && !s.quit
  {
    assert [] + [OwnQuit] == [OwnQuit];
    Extend(Init(), [], OwnQuit);
    Extend(Init(), [OwnQuit], StartLoop);
    Extend(Init(), [OwnQuit] + [StartLoop], TestQuit);
  }

  // ---------------------------------------------------------------- the loop itself

  /** A functor that arrives in the queue, from the loop's own thread or from another one. */
  datatype Arrival = Arrival(f: Functor, own: bool)

  function Names(arrivals: seq<Arrival>): seq<Functor> {
    if arrivals == [] then [] else Names(arrivals[..|arrivals| - 1]) + [arrivals[|arrivals| - 1].f]
  }

  /** What arrives in the queue while the functors of a batch run. */
  function Spawned(fs: seq<Functor>, spawn: Functor -> seq<Arrival>): seq<Functor> {
    if fs == [] then [] else Spawned(fs[..|fs| - 1], spawn) + Names(spawn(fs[|fs| - 1]))
  }

  lemma OneMore(fs: seq<Functor>, i: nat, spawn: Functor -> seq<Arrival>)
    requires i < |fs|
    ensures fs[i..] != [] && fs[i..][0] == fs[i] && fs[i..][1..] == fs[i + 1..]
    ensures fs[..i + 1] == fs[..i] + [fs[i]]
    ensures Spawned(fs[..i + 1], spawn) == Spawned(fs[..i], spawn) + Names(spawn(fs[i]))
  {
    assert fs[..i + 1][..i] == fs[..i];
  }

  class EventLoop {
    var pendingFunctors: seq<Functor>
    var callingPendingFunctors: bool
    var quit: bool
    ghost var wakeupFd: nat
    ghost var pc: Pc
    ghost var ownPush: bool
    ghost var midPush: nat
    ghost var midQuit: nat
    ghost var enqueued: seq<Functor>
    ghost var executed: seq<Functor>

    ghost function St(): Loop reads this {
      Loop(pc, ownPush, pendingFunctors, wakeupFd, callingPendingFunctors, quit, midPush, midQuit, enqueued, executed)
    }

    constructor ()
      ensures St() == Init()
    {
      pendingFunctors, callingPendingFunctors, quit := [], false, false;
      wakeupFd, pc, ownPush, midPush, midQuit, enqueued, executed := 0, Outside, false, 0, 0, [], [];
    }

    /** The critical section of `queueInLoop`. */
    method QueueInLoop(f: Functor, isInLoopThread: bool)
      requires Enabled(St(), if isInLoopThread then OwnPush(f) else OtherPush(f))
      modifies this
      ensures St() == Apply(old(St()), if isInLoopThread then OwnPush(f) else OtherPush(f))
    {
      pendingFunctors := pendingFunctors + [f];
      enqueued := enqueued + [f];
      if isInLoopThread { ownPush := true; } else { midPush := midPush + 1; }
    }

    /** The rest of `queueInLoop`, after the mutex has been released. */
    method WakeupAfterPush(isInLoopThread: bool)
      requires Enabled(St(), if isInLoopThread then OwnWakeTest else OtherWrite)
      modifies this
      ensures St() == Apply(old(St()), if isInLoopThread then OwnWakeTest else OtherWrite)
    {
      if isInLoopThread { ownPush := false; } else { midPush := midPush - 1; }
      if !isInLoopThread || callingPendingFunctors {
        wakeupFd := Written(wakeupFd);
      }
    }

    method Quit(isInLoopThread: bool)
      requires Enabled(St(), if isInLoopThread then OwnQuit else OtherQuit)
      modifies this
      ensures St() == Apply(old(St()), if isInLoopThread then OwnQuit else OtherQuit)
    {
      quit := true;
      if !isInLoopThread { midQuit := midQuit + 1; }
    }

    method HandleRead()
      requires Enabled(St(), ReadEventfd)
      modifies this`wakeupFd
      ensures St() == Apply(old(St()), ReadEventfd)
    {
      wakeupFd := 0;
    }

    /** One test of the loop condition. */
    method TestQuitFlag() returns (again: bool)
      requires Enabled(St(), TestQuit)
      modifies this`pc
      ensures St() == Apply(old(St()), TestQuit) && again == !quit
    {
      again := !quit;
      pc := if quit then Outside else Polling;
    }

    /** `doPendingFunctors`; while functor `f` runs, it and other threads queue `spawn(f)`.
        What arrives then is not run in the same round, and the loop is woken for it. */
    method DoPendingFunctors(spawn: Functor -> seq<Arrival>)
      requires Inv(St()) && pc.Handling? && !ownPush
      modifies this
      ensures executed == old(executed) + old(pendingFunctors)
      ensures pendingFunctors == Spawned(old(pendingFunctors), spawn)
      ensures pendingFunctors != [] ==> wakeupFd > 0
      ensures pc.Testing? && !ownPush && !callingPendingFunctors && Inv(St())
    {
      var functors := TakePending();
      RunBatch(functors, spawn);
      StepKeepsInv(St(), BatchDone);
      pc := Leaving;
      StepKeepsInv(St(), ClearCalling);
      callingPendingFunctors, pc := false, Testing;
    }

    /** Sets the flag and swaps the queue with an empty one. */
    method TakePending() returns (functors: seq<Functor>)
      requires Inv(St()) && pc.Handling? && !ownPush
      modifies this`callingPendingFunctors, this`pc, this`pendingFunctors
      ensures functors == old(pendingFunctors) && pendingFunctors == []
      ensures Inv(St()) && pc == Calling(functors) && !ownPush
    {
      StepKeepsInv(St(), EventsDone);
      callingPendingFunctors, pc := true, Entering;
      StepKeepsInv(St(), TakeBatch);
      functors := pendingFunctors;
      pendingFunctors, pc := [], Calling(functors);
    }

    method RunBatch(functors: seq<Functor>, spawn: Functor -> seq<Arrival>)
      requires Inv(St()) && pc == Calling(functors) && !ownPush && pendingFunctors == []
      modifies this
      ensures Inv(St()) && pc == Calling([]) && !ownPush
      ensures executed == old(executed) + functors && pendingFunctors == Spawned(functors, spawn)
      ensures pendingFunctors != [] ==> wakeupFd > 0
    {
      for i := 0 to |functors|
        invariant Inv(St()) && pc == Calling(functors[i..]) && !ownPush
        invariant executed == old(executed) + functors[..i]
        invariant pendingFunctors == Spawned(functors[..i], spawn)
        invariant pendingFunctors != [] ==> wakeupFd > 0
      {
        OneMore(functors, i, spawn);
        RunOne(functors[i..], spawn);
      }
      assert functors[..|functors|] == functors;
    }

    method RunOne(rest: seq<Functor>, spawn: Functor -> seq<Arrival>)
      requires Inv(St()) && pc == Calling(rest) && rest != [] && !ownPush
      requires pendingFunctors != [] ==> wakeupFd > 0
      modifies this
      ensures Inv(St()) && pc == Calling(rest[1..]) && !ownPush && executed == old(executed) + [rest[0]]
      ensures pendingFunctors == old(pendingFunctors) + Names(spawn(rest[0]))
      ensures pendingFunctors != [] ==> wakeupFd > 0
    {
      StepKeepsInv(St(), RunFunctor);
      executed, pc := executed + [rest[0]], Calling(rest[1..]);
      QueueAll(spawn(rest[0]));
    }

    /** While a functor of the batch runs, `queueInLoop` is called for each arrival. */
    method QueueAll(arrivals: seq<Arrival>)
      requires Inv(St()) && pc.Calling? && !ownPush
      requires pendingFunctors != [] ==> wakeupFd > 0
      modifies this
      ensures Inv(St()) && pc == old(pc) && !ownPush && callingPendingFunctors && executed == old(executed)
      ensures pendingFunctors == old(pendingFunctors) + Names(arrivals)
      ensures pendingFunctors != [] ==> wakeupFd > 0
    {
      for i := 0 to |arrivals|
        invariant Inv(St()) && pc == old(pc) && !ownPush && executed == old(executed)
        invariant pendingFunctors == old(pendingFunctors) + Names(arrivals[..i])
        invariant pendingFunctors != [] ==> wakeupFd > 0
      {
        assert arrivals[..i + 1][..i] == arrivals[..i];
        QueueOne(arrivals[i]);
      }
      assert arrivals[..|arrivals|] == arrivals;
    }

    method QueueOne(arrival: Arrival)
      requires Inv(St()) && pc.Calling? && !ownPush
      modifies this
      ensures Inv(St()) && pc == old(pc) && !ownPush && executed == old(executed)
      ensures pendingFunctors == old(pendingFunctors) + [arrival.f] && wakeupFd > 0
    {
      StepKeepsInv(St(), if arrival.own then OwnPush(arrival.f) else OtherPush(arrival.f));
      QueueInLoop(arrival.f, arrival.own);
      StepKeepsInv(St(), if arrival.own then OwnWakeTest else OtherWrite);
      WakeupAfterPush(arrival.own);
    }
  }
}
