/**
 The connector: one non-blocking connection attempt at a time, retried after a delay that
 doubles up to a limit. Each socket created has a number of its own, so that the reuse of
 descriptors does not matter.
 */
module Connectors {
  import opened Arithmetic

  const INIT_RETRY_DELAY_MS := 500
  const MAX_RETRY_DELAY_MS := 30000

  datatype State = Disconnected | Connecting | Connected

  /** `channel_`: none, watching a socket, or taken out of the poller but not destroyed yet. */
  datatype Channel = NoChannel | Live(fd: nat) | Removed(fd: nat)

  datatype Functor = StartInLoop | StopInLoop | ResetChannel

  /** How `connect` goes, by the class of its error. `NoSocket`: no socket could be created, and
      closing the descriptor -1 does nothing. */
  datatype Attempt = InProgress | Retryable | Fatal | NoSocket

  /** What `handleWrite` finds out about its socket. */
  datatype Completion = SocketError | SelfConnect | Success

  /** `retries`: the delays scheduled since construction or `restart`. */
  datatype Conn = Conn(
    connect: bool, state: State, channel: Channel, delay: int, queue: seq<Functor>, timers: nat,
    created: nat, closed: seq<nat>, handedOver: seq<nat>, retries: seq<int>)

  function Init(): Conn {
    Conn(false, Disconnected, NoChannel, INIT_RETRY_DELAY_MS, [], 0, 0, [], [], [])
  }

  datatype Event =
    | Start(inLoop: bool, attempt: Attempt)
    | Restart(attempt: Attempt)
    | Stop
    | RunFunctor(attempt: Attempt)
    | TimerFires(attempt: Attempt)
    | Writable(completion: Completion)
    | Error

  /** The channel that a connector in progress uses exists. */
  predicate HasChannel(s: Conn) { s.state.Connecting? ==> s.channel.Live? }

  /** The callbacks of a channel may still be called after it has been taken out of the poller:
      one event can report an error and writability. A step that would use a destroyed channel
      is not a step. */
  predicate Enabled(s: Conn, e: Event) {
    match e
    case RunFunctor(_) => s.queue != [] && (s.queue[0].StopInLoop? ==> HasChannel(s))
    case TimerFires(_) => s.timers > 0
    case Writable(_) => s.channel != NoChannel && HasChannel(s)
    case Error => s.channel != NoChannel && HasChannel(s)
    case _ => true
  }

  /** `retry` */
  function RetryStep(s: Conn, fd: nat): Conn {
    var r := s.(closed := s.closed + [fd], state := Disconnected);
    if s.connect then
      r.(timers := s.timers + 1, retries := s.retries + [s.delay], delay := Min(s.delay * 2, MAX_RETRY_DELAY_MS))
    else r
  }

  /** `startInLoop`, with `connect` and `connecting`. */
  function Begin(s: Conn, attempt: Attempt): Conn {
    if !s.connect || attempt.NoSocket? then s else
    var fd, r := s.created, s.(created := s.created + 1);
    match attempt
    case InProgress => r.(state := Connecting, channel := Live(fd))
    case Retryable => RetryStep(r, fd)
    case _ => r.(closed := s.closed + [fd])
  }

  /** `removeAndResetChannel` */
  function RemoveChannel(s: Conn): Conn
    requires s.channel.Live?
  {
    s.(channel := Removed(s.channel.fd), queue := s.queue + [ResetChannel])
  }

  function WritableStep(s: Conn, completion: Completion): Conn
    requires HasChannel(s)
  {
    if !s.state.Connecting? then s else
    var fd, r := s.channel.fd, RemoveChannel(s);
    if !completion.Success? then RetryStep(r, fd)
    else if s.connect then r.(state := Connected, handedOver := s.handedOver + [fd])
    else r.(state := Connected, closed := s.closed + [fd])
  }

  /** `handleError`, and `stopInLoop`: give up the attempt in progress, if there is one. */
  function GiveUp(s: Conn): Conn
    requires HasChannel(s)
  {
    if s.state.Connecting? then RetryStep(RemoveChannel(s), s.channel.fd) else s
  }

  function RunStep(s: Conn, attempt: Attempt): Conn
    requires s.queue != [] && (s.queue[0].StopInLoop? ==> HasChannel(s))
  {
    var r := s.(queue := s.queue[1..]);
    match s.queue[0]
    case StartInLoop => Begin(r, attempt)
    case StopInLoop => GiveUp(r)
    case ResetChannel => r.(channel := NoChannel)
  }

  function Apply(s: Conn, e: Event): Conn
    requires Enabled(s, e)
  {
    match e
    case Start(inLoop, attempt) =>
      if inLoop then Begin(s.(connect := true), attempt)
      else s.(connect := true, queue := s.queue + [StartInLoop])
    case Restart(attempt) =>
      Begin(s.(state := Disconnected, delay := INIT_RETRY_DELAY_MS, retries := [], connect := true), attempt)
    case Stop => s.(connect := false, queue := s.queue + [StopInLoop])
    case RunFunctor(attempt) => RunStep(s, attempt)
    case TimerFires(attempt) => Begin(s.(timers := s.timers - 1), attempt)
    case Writable(completion) => WritableStep(s, completion)
    case Error => GiveUp(s)
  }

  // ---------------------------------------------------------------- who owns a socket

  /** How many owners a socket has: how often it was closed, or handed over, or is watched. */
  function Owners(closed: seq<nat>, handedOver: seq<nat>, channel: Channel, fd: nat): nat {
    multiset(closed)[fd] + multiset(handedOver)[fd] + if channel == Live(fd) then 1 else 0
  }

  ghost predicate AllOwned(closed: seq<nat>, handedOver: seq<nat>, channel: Channel, created: nat) {
    forall fd: nat :: Owners(closed, handedOver, channel, fd) == if fd < created then 1 else 0
  }

  /** Every socket ever created is being watched, or has been closed once, or has been
      handed over once: one of the three, and once. */
  ghost predicate Linear(s: Conn) {
    AllOwned(s.closed, s.handedOver, s.channel, s.created)
  }

  function CountStarts(q: seq<Functor>): nat {
    if q == [] then 0 else CountStarts(q[..|q| - 1]) + if q[|q| - 1].StartInLoop? then 1 else 0
  }

  lemma {:induction false} CountFront(q: seq<Functor>)
    requires q != []
    ensures CountStarts(q) == CountStarts(q[1..]) + if q[0].StartInLoop? then 1 else 0
  {
    if |q| > 1 {
      assert q[1..][..|q| - 2] == q[..|q| - 1][1..];
      CountFront(q[..|q| - 1]);
    }
  }

  lemma {:induction false} CountNone(q: seq<Functor>)
    ensures CountStarts(q) == 0 <==> StartInLoop !in q
  {
    if q != [] {
      CountNone(q[..|q| - 1]);
      assert q == q[..|q| - 1] + [q[|q| - 1]];
    }
  }

  /** Attempts in progress, retries scheduled and starts queued. */
  function Outstanding(s: Conn): nat {
    s.timers + CountStarts(s.queue) + if s.state.Connecting? then 1 else 0
  }

  ghost predicate Inv(s: Conn) {
    && Linear(s)
    && (s.state.Connecting? <==> s.channel.Live?)
    && Outstanding(s) <= 1
    && (ResetChannel in s.queue ==> !s.channel.Live?)
    && ResetsFirst(s.queue)
  }

  predicate ResetsFirst(q: seq<Functor>) {
    forall i, j :: 0 <= i < j < |q| && q[i] == StartInLoop ==> q[j] != ResetChannel
  }

  /** `start` and `restart` are called only when nothing is outstanding. What begins an attempt
      at once, they in the loop thread and a retry timer, comes after the channel of the last
      attempt has been destroyed; a timer does, because it takes half a second, and the
      functor that destroys the channel runs in the same turn of the loop. */
  predicate Disciplined(s: Conn, e: Event) {
    && (e.Start? || e.Restart? ==> Outstanding(s) == 0)
    && ((e.Start? && e.inLoop) || e.Restart? || e.TimerFires? ==> ResetChannel !in s.queue)
  }

  // ---------------------------------------------------------------- every step keeps the invariant

  lemma AnotherClosed(closed: seq<nat>, handedOver: seq<nat>, channel: Channel, n: nat)
    requires AllOwned(closed, handedOver, channel, n)
    ensures AllOwned(closed + [n], handedOver, channel, n + 1)
  {
    forall fd: nat ensures Owners(closed + [n], handedOver, channel, fd) == if fd < n + 1 then 1 else 0 {
      assert Owners(closed + [n], handedOver, channel, fd) ==
        Owners(closed, handedOver, channel, fd) + if fd == n then 1 else 0;
    }
  }

  lemma AnotherWatched(closed: seq<nat>, handedOver: seq<nat>, channel: Channel, n: nat)
    requires AllOwned(closed, handedOver, channel, n) && !channel.Live?
    ensures AllOwned(closed, handedOver, Live(n), n + 1)
  {
    forall fd: nat ensures Owners(closed, handedOver, Live(n), fd) == if fd < n + 1 then 1 else 0 {
      assert Owners(closed, handedOver, Live(n), fd) ==
        Owners(closed, handedOver, channel, fd) + if fd == n then 1 else 0;
    }
  }

  lemma BeginIsLinear(s: Conn, attempt: Attempt)
    requires Linear(s) && !s.channel.Live?
    ensures Linear(Begin(s, attempt))
  {
    if s.connect && !attempt.NoSocket? {
      if attempt.InProgress? {
        AnotherWatched(s.closed, s.handedOver, s.channel, s.created);
      } else {
        AnotherClosed(s.closed, s.handedOver, s.channel, s.created);
      }
    }
  }

  lemma EndIsLinear(closed: seq<nat>, handedOver: seq<nat>, fd: nat, created: nat)
    requires AllOwned(closed, handedOver, Live(fd), created)
    ensures AllOwned(closed + [fd], handedOver, Removed(fd), created)
    ensures AllOwned(closed, handedOver + [fd], Removed(fd), created)
  {
    forall x: nat
      ensures Owners(closed + [fd], handedOver, Removed(fd), x) == Owners(closed, handedOver, Live(fd), x)
      ensures Owners(closed, handedOver + [fd], Removed(fd), x) == Owners(closed, handedOver, Live(fd), x)
    {}
  }

  lemma UnwatchedIsUnwatched(closed: seq<nat>, handedOver: seq<nat>, channel: Channel, created: nat)
    requires !channel.Live?
    ensures AllOwned(closed, handedOver, channel, created) <==> AllOwned(closed, handedOver, NoChannel, created)
  {
    forall x: nat ensures Owners(closed, handedOver, channel, x) == Owners(closed, handedOver, NoChannel, x) {}
  }

  lemma ResetQueued(q: seq<Functor>)
    requires StartInLoop !in q
    ensures CountStarts(q + [ResetChannel]) == CountStarts(q) && ResetsFirst(q + [ResetChannel])
  {
    assert (q + [ResetChannel])[..|q|] == q;
  }

  lemma BeginKeepsInv(s: Conn, attempt: Attempt)
    requires Linear(s) && !s.state.Connecting? && !s.channel.Live?
    requires Outstanding(s) == 0 && ResetChannel !in s.queue
    ensures Inv(Begin(s, attempt))
  {
    BeginIsLinear(s, attempt);
    CountNone(s.queue);
    assert Begin(s, attempt).queue == s.queue;
  }

  lemma GiveUpKeepsInv(s: Conn)
    requires Inv(s)
    ensures Inv(GiveUp(s))
  {
    if s.state.Connecting? {
      EndIsLinear(s.closed, s.handedOver, s.channel.fd, s.created);
      CountNone(s.queue);
      ResetQueued(s.queue);
    }
  }

  lemma WritableKeepsInv(s: Conn, completion: Completion)
    requires Inv(s)
    ensures Inv(WritableStep(s, completion))
  {
    if s.state.Connecting? {
      EndIsLinear(s.closed, s.handedOver, s.channel.fd, s.created);
      CountNone(s.queue);
      ResetQueued(s.queue);
    }
  }

  lemma QueueKeepsInv(s: Conn, connect: bool, f: Functor)
    requires Inv(s) && (f.StopInLoop? || (f.StartInLoop? && Outstanding(s) == 0))
    ensures Inv(s.(connect := connect, queue := s.queue + [f]))
  {
    assert (s.queue + [f])[..|s.queue|] == s.queue;
  }

  lemma FunctorKeepsInv(s: Conn, attempt: Attempt)
    requires Inv(s) && s.queue != []
    ensures Inv(RunStep(s, attempt))
  {
    var r := s.(queue := s.queue[1..]);
    CountFront(s.queue);
    match s.queue[0]
    case StartInLoop => BeginKeepsInv(r, attempt);
    case StopInLoop => GiveUpKeepsInv(r);
    case ResetChannel => UnwatchedIsUnwatched(s.closed, s.handedOver, s.channel, s.created);
  }

  lemma StartKeepsInv(s: Conn, e: Event)
    requires Inv(s) && (e.Start? || e.Restart?) && Disciplined(s, e)
    ensures Inv(Apply(s, e))
  {
    match e
    case Start(inLoop, attempt) =>
      if inLoop {
        BeginKeepsInv(s.(connect := true), attempt);
      } else {
        QueueKeepsInv(s, true, StartInLoop);
      }
    case Restart(attempt) =>
      BeginKeepsInv(s.(state := Disconnected, delay := INIT_RETRY_DELAY_MS, retries := [], connect := true), attempt);
  }

  lemma TimerKeepsInv(s: Conn, attempt: Attempt)
    requires Inv(s) && s.timers > 0 && ResetChannel !in s.queue
    ensures Inv(Apply(s, TimerFires(attempt)))
  {
    var r := s.(timers := s.timers - 1);
    assert Linear(r) && Outstanding(r) == 0;
    BeginKeepsInv(r, attempt);
    assert Apply(s, TimerFires(attempt)) == Begin(r, attempt);
  }

  lemma StepKeepsInv(s: Conn, e: Event)
    requires Inv(s) && Enabled(s, e) && Disciplined(s, e)
    ensures Inv(Apply(s, e))
  {
    match e
    case Start(_, _) => StartKeepsInv(s, e);
    case Restart(_) => StartKeepsInv(s, e);
    case Stop => QueueKeepsInv(s, false, StopInLoop);
    case RunFunctor(attempt) => FunctorKeepsInv(s, attempt);
    case TimerFires(attempt) => TimerKeepsInv(s, attempt);
    case Writable(completion) => WritableKeepsInv(s, completion);
    case Error => GiveUpKeepsInv(s);
  }

  // ---------------------------------------------------------------- whole runs

  predicate Legal(s0: Conn, es: seq<Event>)
    decreases |es|, 0
  {
    es == [] || (Legal(s0, es[..|es| - 1]) && Enabled(Exec(s0, es[..|es| - 1]), es[|es| - 1]))
  }

  function Exec(s0: Conn, es: seq<Event>): Conn
    requires Legal(s0, es)
    decreases |es|, 1
  {
    if es == [] then s0 else Apply(Exec(s0, es[..|es| - 1]), es[|es| - 1])
  }

  predicate DisciplinedRun(s0: Conn, es: seq<Event>)
    requires Legal(s0, es)
  {
    es == [] || (DisciplinedRun(s0, es[..|es| - 1]) && Disciplined(Exec(s0, es[..|es| - 1]), es[|es| - 1]))
  }

  lemma {:induction false} RunKeepsInv(s0: Conn, es: seq<Event>)
    requires Inv(s0) && Legal(s0, es) && DisciplinedRun(s0, es)
    ensures Inv(Exec(s0, es))
  {
    if es != [] {
      RunKeepsInv(s0, es[..|es| - 1]);
      StepKeepsInv(Exec(s0, es[..|es| - 1]), es[|es| - 1]);
    }
  }

  /** In any disciplined run a socket is closed at most once and handed over at most once,
      never both; and it is neither exactly as long as its attempt is in progress. */
  lemma SocketsAreLinear(s0: Conn, es: seq<Event>, fd: nat)
    requires Inv(s0) && Legal(s0, es) && DisciplinedRun(s0, es) && fd < Exec(s0, es).created
    ensures var s := Exec(s0, es);
      && multiset(s.closed)[fd] + multiset(s.handedOver)[fd] <= 1
      && (multiset(s.closed)[fd] + multiset(s.handedOver)[fd] == 0 <==> s.state.Connecting? && s.channel == Live(fd))
  {
    var s := Exec(s0, es);
    RunKeepsInv(s0, es);
    assert Owners(s.closed, s.handedOver, s.channel, fd) == 1;
  }

  lemma NotOwned(s: Conn, fd: nat)
    requires fd < s.created && Owners(s.closed, s.handedOver, s.channel, fd) != 1
    ensures !Linear(s)
  {
  }

  lemma WatchedIsNotElsewhere(s: Conn)
    requires Linear(s) && s.channel.Live?
    ensures s.channel.fd < s.created
    ensures multiset(s.closed)[s.channel.fd] + multiset(s.handedOver)[s.channel.fd] == 0
  {
    var fd := s.channel.fd;
    assert Owners(s.closed, s.handedOver, s.channel, fd) >= 1;
  }

  /** Every socket has its owner, and the one that is watched belongs to the attempt in
      progress, which alone closes it or hands it over. */
  ghost predicate Sound(s: Conn) {
    Linear(s) && (s.state.Connecting? <==> s.channel.Live?)
  }

  /** An attempt made while a socket is being watched loses that socket unless it fails for
      good: in progress, it takes the channel; to be retried, it leaves a watched socket that
      belongs to no attempt. So an attempt is safe whatever its outcome exactly when nothing
      is being watched. */
  lemma AttemptIsSoundIff(s: Conn, attempt: Attempt)
    requires Sound(s) && s.connect
    ensures Sound(Begin(s, attempt)) <==> !s.channel.Live? || attempt.Fatal? || attempt.NoSocket?
    ensures (forall any :: Sound(Begin(s, any))) <==> !s.channel.Live?
  {
    OneAttempt(s, attempt);
    OneAttempt(s, InProgress);
    forall any ensures Sound(Begin(s, any)) <==> !s.channel.Live? || any.Fatal? || any.NoSocket? {
      OneAttempt(s, any);
    }
  }

  lemma OneAttempt(s: Conn, attempt: Attempt)
    requires Sound(s) && s.connect
    ensures Sound(Begin(s, attempt)) <==> !s.channel.Live? || attempt.Fatal? || attempt.NoSocket?
  {
    if !s.channel.Live? {
      BeginIsLinear(s, attempt);
    } else if attempt.InProgress? {
      WatchedIsNotElsewhere(s);
      NotOwned(Begin(s, attempt), s.channel.fd);
    } else if attempt.Fatal? {
      AnotherClosed(s.closed, s.handedOver, s.channel, s.created);
    }
  }

  /** The queued destruction of a channel loses a socket exactly when a new attempt has put
      its own channel there in the meantime. */
  lemma ResetIsLinearIff(s: Conn, attempt: Attempt)
    requires Linear(s) && s.queue != [] && s.queue[0] == ResetChannel
    ensures Linear(RunStep(s, attempt)) <==> !s.channel.Live?
  {
    if s.channel.Live? {
      WatchedIsNotElsewhere(s);
      NotOwned(RunStep(s, attempt), s.channel.fd);
    } else {
      UnwatchedIsUnwatched(s.closed, s.handedOver, s.channel, s.created);
    }
  }

  // ---------------------------------------------------------------- backoff

  function Power2(k: nat): nat { if k == 0 then 1 else 2 * Power2(k - 1) }

  /** The delay before retry number `k`, counted from 0. */
  function Backoff(k: nat): int { Min(500 * Power2(k), 30000) }

  predicate BackoffOk(s: Conn) {
    && s.delay == Backoff(|s.retries|)
    && forall k :: 0 <= k < |s.retries| ==> s.retries[k] == Backoff(k)
  }

  lemma BackoffDoubles(k: nat)
    ensures Backoff(k + 1) == Min(Backoff(k) * 2, 30000)
  {
  }

  /** Scheduled retries wait 500 ms, then twice as long each time, up to 30 s; no discipline
      of the callers is needed. */
  lemma StepKeepsBackoff(s: Conn, e: Event)
    requires BackoffOk(s) && Enabled(s, e)
    ensures BackoffOk(Apply(s, e))
  {
    BackoffDoubles(|s.retries|);
    BackoffDoubles(0);
    assert Backoff(0) == INIT_RETRY_DELAY_MS;
  }

  lemma {:induction false} RetryDelays(s0: Conn, es: seq<Event>)
    requires BackoffOk(s0) && Legal(s0, es)
    ensures BackoffOk(Exec(s0, es))
  {
    if es != [] {
      RetryDelays(s0, es[..|es| - 1]);
      StepKeepsBackoff(Exec(s0, es[..|es| - 1]), es[|es| - 1]);
    }
  }

  lemma InitOk()
    ensures Inv(Init()) && BackoffOk(Init())
  {
    assert Backoff(0) == INIT_RETRY_DELAY_MS;
  }

  /** The step begins an attempt. */
  predicate BeginsAttempt(s: Conn, e: Event) {
    e.TimerFires? || (e.RunFunctor? && s.queue != [] && s.queue[0].StartInLoop?)
  }

  predicate FailsForGood(s: Conn, e: Event) {
    BeginsAttempt(s, e) && (e.attempt.Fatal? || e.attempt.NoSocket?)
  }

  /** As long as `stop` is not called, a connector that has something outstanding goes on: a
      step leaves something outstanding too, or hands the connection over, exactly when it does
      not begin an attempt that fails for good. */
  lemma KeepsTryingIff(s: Conn, e: Event)
    requires Inv(s) && Enabled(s, e) && Disciplined(s, e) && !e.Stop?
    requires s.connect && Outstanding(s) == 1
    ensures var r := Apply(s, e);
      && r.connect
      && (Outstanding(r) == 1 || (s.channel.Live? && r.handedOver == s.handedOver + [s.channel.fd])
          <==> !FailsForGood(s, e))
  {
    CountNone(s.queue);
    if e.RunFunctor? {
      FunctorKeepsTrying(s, e.attempt);
    } else if (e.Writable? || e.Error?) && s.state.Connecting? {
      ResetQueued(s.queue);
    }
  }

  lemma FunctorKeepsTrying(s: Conn, attempt: Attempt)
    requires Inv(s) && s.queue != [] && s.connect && Outstanding(s) == 1
    ensures var r := RunStep(s, attempt);
      && r.connect && r.handedOver == s.handedOver
      && (Outstanding(r) == 1 <==> !FailsForGood(s, RunFunctor(attempt)))
  {
    CountFront(s.queue);
    CountNone(s.queue);
    if s.queue[0] == StopInLoop { GivingUpKeepsTrying(s.(queue := s.queue[1..])); }
  }

  lemma GivingUpKeepsTrying(s: Conn)
    requires s.connect && (s.state.Connecting? ==> s.channel.Live?)
    ensures Outstanding(GiveUp(s)) == Outstanding(s) && GiveUp(s).connect
  {
    assert (s.queue + [ResetChannel])[..|s.queue|] == s.queue;
  }

  // ---------------------------------------------------------------- what each event decides

  /** One retry more is scheduled, with the current delay, or none. */
  predicate RetriedIff(s: Conn, r: Conn, again: bool) {
    if again then r.timers == s.timers + 1 && r.retries == s.retries + [s.delay]
    else r.timers == s.timers && r.retries == s.retries
  }

  /** When the socket of the attempt in progress becomes writable: without an error, and not
      connected to itself, the connector is connected, and it hands the socket over unless it
      has been stopped; in all other cases the socket is closed, and after a failure another
      attempt is scheduled unless it has been stopped. */
  lemma CompletionDecides(s: Conn, completion: Completion)
    requires Inv(s) && s.state.Connecting?
    ensures var r, fd := Apply(s, Writable(completion)), s.channel.fd;
      && (r.state.Connected? <==> completion.Success?) && !r.state.Connecting?
      && (fd in r.handedOver <==> completion.Success? && s.connect)
      && (fd in r.closed <==> !(completion.Success? && s.connect))
      && RetriedIff(s, r, !completion.Success? && s.connect)
      && r.channel == Removed(fd) && r.queue == s.queue + [ResetChannel] && r.connect == s.connect
  {
    WatchedIsNotElsewhere(s);
  }

  predicate IsFailure(s: Conn, e: Event) {
    e.Error? || (e.RunFunctor? && s.queue != [] && s.queue[0].StopInLoop?)
  }

  /** An error, or the functor of `stop`, ends the attempt in progress: its socket is closed,
      never handed over, and another attempt is scheduled unless the connector is stopped. */
  lemma FailureDecides(s: Conn, e: Event)
    requires Inv(s) && Enabled(s, e) && IsFailure(s, e) && s.state.Connecting?
    ensures var r, fd := Apply(s, e), s.channel.fd;
      && r.state.Disconnected? && fd in r.closed && fd !in r.handedOver
      && RetriedIff(s, r, s.connect)
      && r.channel == Removed(fd) && r.connect == s.connect
      && r.queue == (if e.Error? then s.queue else s.queue[1..]) + [ResetChannel]
  {
    WatchedIsNotElsewhere(s);
  }

  /** Events of an attempt that is over are ignored. */
  lemma LateEventsAreIgnored(s: Conn, e: Event)
    requires Enabled(s, e) && (e.Writable? || IsFailure(s, e)) && !s.state.Connecting?
    ensures Apply(s, e) == s.(queue := if e.RunFunctor? then s.queue[1..] else s.queue)
  {
  }

  /** The events with which the connector tries: it has not been stopped, or is started anew. */
  predicate Tries(s: Conn, e: Event) {
    (e.Start? && e.inLoop) || e.Restart? || (s.connect && BeginsAttempt(s, e))
  }

  /** A socket is created by those events and no other, if the system can; it is watched exactly
      while the attempt is in progress, closed at once if the attempt has failed, and the next
      attempt is scheduled exactly if the failure is not for good. */
  lemma AttemptDecides(s: Conn, e: Event)
    requires Inv(s) && Enabled(s, e) && Disciplined(s, e)
    ensures var r, fd := Apply(s, e), s.created;
      && r.created == s.created + (if Tries(s, e) && !e.attempt.NoSocket? then 1 else 0)
      && (Tries(s, e) ==>
            && r.connect
            && (r.channel == Live(fd) <==> e.attempt.InProgress?)
            && (r.state.Connecting? <==> e.attempt.InProgress?)
            && (fd in r.closed <==> e.attempt.Retryable? || e.attempt.Fatal?)
            && r.timers == (if e.attempt.Retryable? then 1 else 0)
            && (e.attempt.Retryable? ==>
                  r.retries == if e.Restart? then [INIT_RETRY_DELAY_MS] else s.retries + [s.delay]))
  {
    if Tries(s, e) {
      assert Owners(s.closed, s.handedOver, s.channel, s.created) == 0;
      CountNone(s.queue);
      if e.RunFunctor? { CountFront(s.queue); }
    }
  }

  /** The socket that a step hands over: that of an attempt that has succeeded, unless stopped. */
  function Succeeded(s: Conn, e: Event): seq<nat> {
    if e == Writable(Success) && s.connect && s.state.Connecting? && s.channel.Live? then [s.channel.fd] else []
  }

  function Successes(s0: Conn, es: seq<Event>): seq<nat>
    requires Legal(s0, es)
  {
    if es == [] then [] else Successes(s0, es[..|es| - 1]) + Succeeded(Exec(s0, es[..|es| - 1]), es[|es| - 1])
  }

  /** In any run, disciplined or not, the sockets handed over are those whose attempts have
      succeeded while the connector was not stopped, in that order. */
  lemma {:induction false} HandsOverSuccesses(s0: Conn, es: seq<Event>)
    requires Legal(s0, es)
    ensures Exec(s0, es).handedOver == s0.handedOver + Successes(s0, es)
  {
    if es != [] {
      var prefix, e := es[..|es| - 1], es[|es| - 1];
      HandsOverSuccesses(s0, prefix);
      OnlySuccessIsHandedOver(Exec(s0, prefix), e);
      assert (s0.handedOver + Successes(s0, prefix)) + Succeeded(Exec(s0, prefix), e) ==
        s0.handedOver + (Successes(s0, prefix) + Succeeded(Exec(s0, prefix), e));
    }
  }

  lemma OnlySuccessIsHandedOver(s: Conn, e: Event)
    requires Enabled(s, e)
    ensures Apply(s, e).handedOver == s.handedOver + Succeeded(s, e)
  {
  }

  predicate StartsNothing(es: seq<Event>) {
    forall e :: e in es ==> !e.Start? && !e.Restart?
  }

  /** After `stop`, until somebody starts the connector again: no socket is created or handed
      over and no retry scheduled, in any run; a timer that fires all the same does nothing, and
      once the queue is empty no attempt is in progress any more. */
  lemma {:induction false} StoppedStaysStopped(s: Conn, es: seq<Event>)
    requires Legal(Apply(s, Stop), es) && StartsNothing(es)
    ensures var r := Exec(Apply(s, Stop), es);
      && !r.connect && r.created == s.created && r.handedOver == s.handedOver && r.timers <= s.timers
      && (r.state.Connecting? ==> StopInLoop in r.queue)
  {
    if es != [] {
      assert es[|es| - 1] in es && forall e :: e in es[..|es| - 1] ==> e in es;
      StoppedStaysStopped(s, es[..|es| - 1]);
    }
  }

  /** A start leaves something outstanding exactly when it is queued or its attempt does not fail
      for good. */
  lemma StartIsOutstandingIff(s: Conn, e: Event)
    requires Inv(s) && (e.Start? || e.Restart?) && Disciplined(s, e)
    ensures var r := Apply(s, e);
      && r.connect
      && (Outstanding(r) == 1 <==> (e.Start? && !e.inLoop) || e.attempt.InProgress? || e.attempt.Retryable?)
  {
    if e.Start? && !e.inLoop { assert (s.queue + [StartInLoop])[..|s.queue|] == s.queue; }
  }

  // ---------------------------------------------------------------- runs that lose a socket

  lemma Extend(s0: Conn, es: seq<Event>, e: Event)
    requires Legal(s0, es) && Enabled(Exec(s0, es), e)
    ensures Legal(s0, es + [e]) && Exec(s0, es + [e]) == Apply(Exec(s0, es), e)
    ensures DisciplinedRun(s0, es + [e]) <==> DisciplinedRun(s0, es) && Disciplined(Exec(s0, es), e)
  {
    assert (es + [e])[..|es|] == es;
  }

  /** Nobody closes the socket any more, or hands it over, or watches it for an attempt. */
  predicate Lost(s: Conn, fd: nat) {
    fd < s.created && fd !in s.closed && fd !in s.handedOver && !(s.channel == Live(fd) && s.state.Connecting?)
  }

  lemma FirstStart()
    ensures var es := [Start(true, InProgress)];
      Legal(Init(), es) && DisciplinedRun(Init(), es) &&
      Exec(Init(), es) == Init().(connect := true, state := Connecting, channel := Live(0), created := 1)
  {
    assert [] + [Start(true, InProgress)] == [Start(true, InProgress)];
    Extend(Init(), [], Start(true, InProgress));
  }

  /** Two starts in a row lose the first socket, whether the second attempt is in progress or
      to be retried; in the second case nothing that happens to the channel helps. */
  lemma TwoStartsLoseASocket()
    ensures var es := [Start(true, InProgress)] + [Start(true, InProgress)];
      Legal(Init(), es) && !DisciplinedRun(Init(), es) && Lost(Exec(Init(), es), 0)
    ensures
      var es := [Start(true, InProgress)] + [Start(true, Retryable)]
        + [Writable(Success)] + [Error] + [Stop] + [RunFunctor(Fatal)];
      Legal(Init(), es) && !DisciplinedRun(Init(), es) && Lost(Exec(Init(), es), 0) && Exec(Init(), es).queue == []
  {
    FirstStart();
    var e0, e1 := Start(true, InProgress), Start(true, Retryable);
    Extend(Init(), [e0], Start(true, InProgress));
    Extend(Init(), [e0], e1);
    Extend(Init(), [e0] + [e1], Writable(Success));
    Extend(Init(), [e0] + [e1] + [Writable(Success)], Error);
    Extend(Init(), [e0] + [e1] + [Writable(Success)] + [Error], Stop);
    Extend(Init(), [e0] + [e1] + [Writable(Success)] + [Error] + [Stop], RunFunctor(Fatal));
  }

  /** Stopped, and started again in the loop thread when nothing is outstanding, but before the
      old channel has been destroyed: the new socket is lost. */
  lemma EarlyRestartLosesASocket()
    ensures
      var es := [Start(true, InProgress)] + [Stop] + [RunFunctor(Fatal)];
      var more := es + [Start(true, InProgress)] + [RunFunctor(Fatal)];
      && Legal(Init(), es) && DisciplinedRun(Init(), es) && Outstanding(Exec(Init(), es)) == 0
      && Legal(Init(), more) && !DisciplinedRun(Init(), more) && Lost(Exec(Init(), more), 1)
  {
    FirstStart();
    var e0 := Start(true, InProgress);
    Extend(Init(), [e0], Stop);
    Extend(Init(), [e0] + [Stop], RunFunctor(Fatal));
    var es := [e0] + [Stop] + [RunFunctor(Fatal)];
    assert Exec(Init(), es).queue == [ResetChannel];
    CountNone([ResetChannel]);
    Extend(Init(), es, e0);
    Extend(Init(), es + [e0], RunFunctor(Fatal));
  }

  /** A retry timer that fires before the old channel has been destroyed: the new socket is
      lost as well. */
  lemma EarlyTimerLosesASocket()
    ensures
      var es := [Start(true, InProgress)] + [Writable(SocketError)];
      var more := es + [TimerFires(InProgress)] + [RunFunctor(Fatal)];
      && Legal(Init(), es) && DisciplinedRun(Init(), es)
      && Legal(Init(), more) && !DisciplinedRun(Init(), more) && Lost(Exec(Init(), more), 1)
  {
    FirstStart();
    var e0, e1 := Start(true, InProgress), Writable(SocketError);
    Extend(Init(), [e0], e1);
    assert Exec(Init(), [e0] + [e1]).queue == [ResetChannel];
    Extend(Init(), [e0] + [e1], TimerFires(InProgress));
    Extend(Init(), [e0] + [e1] + [TimerFires(InProgress)], RunFunctor(Fatal));
  }

  // ---------------------------------------------------------------- the connector itself

  class Connector {
    var connect_: bool
    var state: State
    var channel: Channel
    var retryDelayMs: int
    var pendingFunctors: seq<Functor>
    var retryTimers: nat
    ghost var created: nat
    ghost var closed: seq<nat>
    ghost var handedOver: seq<nat>
    ghost var retries: seq<int>

    ghost function St(): Conn
      reads this
    {
      Conn(connect_, state, channel, retryDelayMs, pendingFunctors, retryTimers, created, closed, handedOver, retries)
    }

    constructor ()
      ensures St() == Init()
    {
      connect_, state, channel, retryDelayMs := false, Disconnected, NoChannel, INIT_RETRY_DELAY_MS;
      pendingFunctors, retryTimers := [], 0;
      created, closed, handedOver, retries := 0, [], [], [];
    }

    method Start(inLoop: bool, sockfd: nat, attempt: Attempt)
      requires sockfd == created
      modifies this
      ensures St() == Apply(old(St()), Event.Start(inLoop, attempt))
    {
      connect_ := true;
      if inLoop {
        StartInLoop(sockfd, attempt);
      } else {
        pendingFunctors := pendingFunctors + [Functor.StartInLoop];
      }
    }

    method Restart(sockfd: nat, attempt: Attempt)
      requires sockfd == created
      modifies this
      ensures St() == Apply(old(St()), Event.Restart(attempt))
    {
      state := Disconnected;
      retryDelayMs := INIT_RETRY_DELAY_MS;
      retries := [];
      connect_ := true;
      StartInLoop(sockfd, attempt);
    }

    method Stop()
      modifies this
      ensures St() == Apply(old(St()), Event.Stop)
    {
      connect_ := false;
      pendingFunctors := pendingFunctors + [Functor.StopInLoop];
    }

    method StartInLoop(sockfd: nat, attempt: Attempt)
      requires sockfd == created
      modifies this
      ensures St() == Begin(old(St()), attempt)
    {
      if connect_ {
        Connect(sockfd, attempt);
      }
    }

    method Connect(sockfd: nat, attempt: Attempt)
      requires connect_ && sockfd == created
      modifies this
      ensures St() == Begin(old(St()), attempt)
    {
      if attempt != NoSocket {
        created := created + 1;
      }
      match attempt {
        case InProgress => Connecting(sockfd);
        case Retryable => Retry(sockfd);
        case Fatal => closed := closed + [sockfd];
        case NoSocket =>
      }
    }

    method Connecting(sockfd: nat)
      modifies this
      ensures St() == old(St()).(state := State.Connecting, channel := Live(sockfd))
    {
      state := State.Connecting;
      channel := Live(sockfd);
    }

    method RemoveAndResetChannel() returns (sockfd: nat)
      requires channel.Live?
      modifies this
      ensures sockfd == old(channel).fd && St() == RemoveChannel(old(St()))
    {
      sockfd := channel.fd;
      channel := Removed(sockfd);
      pendingFunctors := pendingFunctors + [Functor.ResetChannel];
    }

    method StopInLoop()
      requires state.Connecting? ==> channel.Live?
      modifies this
      ensures St() == GiveUp(old(St()))
    {
      if state == State.Connecting {
        state := Disconnected;
        var sockfd := RemoveAndResetChannel();
        Retry(sockfd);
      }
    }

    method ResetChannel()
      modifies this
      ensures St() == old(St()).(channel := NoChannel)
    {
      channel := NoChannel;
    }

    method HandleWrite(completion: Completion)
      requires state.Connecting? ==> channel.Live?
      modifies this
      ensures St() == WritableStep(old(St()), completion)
    {
      if state == State.Connecting {
        var sockfd := RemoveAndResetChannel();
        if completion == SocketError {
          Retry(sockfd);
        } else if completion == SelfConnect {
          Retry(sockfd);
        } else {
          state := Connected;
          if connect_ {
            handedOver := handedOver + [sockfd];
          } else {
            closed := closed + [sockfd];
          }
        }
      }
    }

    method HandleError()
      requires state.Connecting? ==> channel.Live?
      modifies this
      ensures St() == GiveUp(old(St()))
    {
      if state == State.Connecting {
        var sockfd := RemoveAndResetChannel();
        Retry(sockfd);
      }
    }

    method Retry(sockfd: nat)
      modifies this
      ensures St() == RetryStep(old(St()), sockfd)
    {
      closed := closed + [sockfd];
      state := Disconnected;
      if connect_ {
        retryTimers := retryTimers + 1;
        retries := retries + [retryDelayMs];
        retryDelayMs := if retryDelayMs * 2 < MAX_RETRY_DELAY_MS then retryDelayMs * 2 else MAX_RETRY_DELAY_MS;
      }
    }

    /** The loop runs the first functor in its queue. */
    method RunFunctor(sockfd: nat, attempt: Attempt)
      requires Enabled(St(), Event.RunFunctor(attempt)) && sockfd == created
      modifies this
      ensures St() == Apply(old(St()), Event.RunFunctor(attempt))
    {
      var f := pendingFunctors[0];
      pendingFunctors := pendingFunctors[1..];
      match f {
        case StartInLoop => StartInLoop(sockfd, attempt);
        case StopInLoop => StopInLoop();
        case ResetChannel => ResetChannel();
      }
    }
  }
}
