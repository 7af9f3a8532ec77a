/**
 The timer queue: two indexes over raw timer pointers, a set of cancellations made
 while callbacks run, and a one-shot timerfd. Addresses are reused after `delete`;
 sequence numbers are not. Clock readings come from the environment.
 */
module TimerQueues {
  import opened Arithmetic

  /** Every pointer is below `UINTPTR_MAX`; 0 is the null pointer. */
  const UINTPTR_MAX: int := 0xFFFF_FFFF_FFFF_FFFF
  type Addr = a: int | 0 <= a < UINTPTR_MAX

  datatype Timer = Timer(expiration: int, delta: int, repeat: bool, seqno: int)
  datatype Entry = Entry(when: int, addr: Addr)
  datatype ActiveTimer = ActiveTimer(addr: Addr, seqno: int)

  /** What `addTimer` returns: a pointer and a sequence number narrowed to `int`. */
  datatype TimerId = TimerId(addr: Addr, sequence: int)

  datatype TimerFd = Disarmed | Armed(deadline: int, armedAt: int) | Readable

  /** `Calling` lasts from `getExpired` to the end of `handleRead`; `next` callbacks of the
      batch have been started. */
  datatype Phase = Quiet | Calling(batch: seq<Entry>, next: nat, now: int)

  /** History: where a sequence number was allocated, and which timer ran in which batch. */
  datatype Made = Made(addr: Addr, repeat: bool)
  datatype Ran = Ran(seqno: int, batch: nat)

  datatype Queue = Queue(
    heap: map<Addr, Timer>, created: int, inFlight: set<Addr>,
    timers: set<Entry>, active: set<ActiveTimer>, canceling: set<ActiveTimer>,
    phase: Phase, fd: TimerFd,
    made: map<int, Made>, batchNo: nat, log: seq<Ran>, cancelled: map<int, nat>)

  function Init(): Queue {
    Queue(map[], 0, {}, {}, {}, {}, Quiet, Disarmed, map[], 0, [], map[])
  }

  const MICROS_PER_SECOND := 1000000

  /** `addTime`'s conversion of seconds to microseconds, for a positive interval. */
  function Micros(interval: real): int { (interval * 1000000.0).Floor }

  /** `d` is the interval in whole microseconds. */
  predicate IsMicrosOf(d: int, interval: real) {
    d as real <= interval * 1000000.0 < d as real + 1.0
  }

  function IdOf(addr: Addr, seqno: int): TimerId { TimerId(addr, ToInt32(seqno)) }

  function KeyOf(heap: map<Addr, Timer>, a: Addr): ActiveTimer
    requires a in heap
  {
    ActiveTimer(a, heap[a].seqno)
  }

  // ---------------------------------------------------------------- the timerfd

  datatype TimeSpec = TimeSpec(sec: int, nsec: int)

  function HowMuchTimeFromNow(when: int, clock: int): TimeSpec {
    var micros := Max(when - clock, 100);
    TimeSpec(micros / MICROS_PER_SECOND, micros % MICROS_PER_SECOND * 1000)
  }

  /** The split into seconds and nanoseconds is exact and well formed, and never asks for
      less than 100 microseconds. */
  lemma TimeSpecIsExact(when: int, clock: int)
    ensures var ts := HowMuchTimeFromNow(when, clock);
      && ts.sec >= 0 && 0 <= ts.nsec < 1_000_000_000
      && ts.sec * 1_000_000_000 + ts.nsec == 1000 * (Max(when, clock + 100) - clock)
  {
    var micros := Max(when - clock, 100);
    assert micros == micros / MICROS_PER_SECOND * MICROS_PER_SECOND + micros % MICROS_PER_SECOND;
  }

  /** `resetTimerfd`: the kernel adds the relative time to its own reading of the clock. */
  function Arm(when: int, clock: int): TimerFd {
    Armed(Max(when, clock + 100), clock)
  }

  // ---------------------------------------------------------------- lists of entries

  predicate Before(d: Entry, e: Entry) {
    d.when < e.when || (d.when == e.when && d.addr < e.addr)
  }

  predicate Sorted(es: seq<Entry>) {
    forall i, j :: 0 <= i < j < |es| ==> Before(es[i], es[j])
  }

  function Elements(es: seq<Entry>): set<Entry> { set e | e in es }

  function Addresses(es: seq<Entry>): set<Addr> { set e | e in es :: e.addr }

  predicate NewEarliest(when: int, timers: set<Entry>) {
    forall e :: e in timers ==> when < e.when
  }

  predicate IsEarliest(first: Entry, timers: set<Entry>) {
    first in timers && forall e :: e in timers ==> first.when <= e.when
  }

  /** What `getExpired` must return: exactly the entries that are due, in order. */
  ghost predicate IsExpiredList(batch: seq<Entry>, timers: set<Entry>, now: int) {
    Sorted(batch) && forall e :: e in batch <==> e in timers && e.when <= now
  }

  function Batch(phase: Phase): seq<Entry> { if phase.Calling? then phase.batch else [] }

  /** The timers of the batch whose callbacks have been started, and the others. */
  function Begun(phase: Phase): set<Addr> {
    if phase.Calling? && phase.next <= |phase.batch| then Addresses(phase.batch[..phase.next]) else {}
  }

  function Due(phase: Phase): set<Addr> {
    if phase.Calling? && phase.next <= |phase.batch| then Addresses(phase.batch[phase.next..]) else {}
  }

  // ---------------------------------------------------------------- invariant

  ghost predicate HeapOk(heap: map<Addr, Timer>, created: int, made: map<int, Made>) {
    && 0 <= created
    && (forall a :: a in heap ==>
          a != 0 && heap[a].seqno in made && made[heap[a].seqno] == Made(a, heap[a].repeat)
          && (heap[a].repeat ==> heap[a].delta >= 0))
    && (forall q :: q in made <==> 1 <= q <= created)
    && (forall q :: q in made && made[q].addr in heap ==> q <= heap[made[q].addr].seqno)
  }

  /** The two indexes agree: a timer is listed under its expiration exactly when it is
      active. */
  ghost predicate TwoIndex(heap: map<Addr, Timer>, timers: set<Entry>, active: set<ActiveTimer>) {
    && (forall e :: e in timers ==>
          e.addr in heap && heap[e.addr].expiration == e.when && KeyOf(heap, e.addr) in active)
    && (forall k :: k in active ==>
          k.addr in heap && heap[k.addr].seqno == k.seqno && Entry(heap[k.addr].expiration, k.addr) in timers)
  }

  /** Who owns an allocated timer: the functor that will add it, the active set, or the
      batch whose callbacks are running; never two of them. */
  ghost predicate Owned(heap: map<Addr, Timer>, inFlight: set<Addr>, active: set<ActiveTimer>, batch: seq<Entry>) {
    && inFlight <= heap.Keys
    && (forall e :: e in batch ==> e.addr in heap && heap[e.addr].expiration == e.when)
    && (forall i, j :: 0 <= i < j < |batch| ==> batch[i].addr != batch[j].addr)
    && (forall a :: a in heap ==>
          if a in inFlight then a !in Addresses(batch) && KeyOf(heap, a) !in active
          else a in Addresses(batch) <==> KeyOf(heap, a) !in active)
  }

  predicate Alive(heap: map<Addr, Timer>, made: map<int, Made>, q: int) {
    q in made && made[q].addr in heap && heap[made[q].addr].seqno == q
  }

  /** A cancelled timer is gone, or it belongs to the running batch and is marked. */
  ghost predicate CancelledOk(s: Queue) {
    forall q :: q in s.cancelled ==>
      && q in s.made
      && (Alive(s.heap, s.made, q) ==>
            && s.made[q].addr in Addresses(Batch(s.phase))
            && ActiveTimer(s.made[q].addr, q) in s.canceling && s.cancelled[q] == s.batchNo)
  }

  ghost predicate RanOk(s: Queue, r: Ran) {
    && r.seqno in s.made && r.batch <= s.batchNo
    && (r.seqno in s.cancelled ==> r.batch <= s.cancelled[r.seqno])
    && (Alive(s.heap, s.made, r.seqno) ==>
          && (!s.made[r.seqno].repeat ==> s.made[r.seqno].addr in Begun(s.phase))
          && (s.made[r.seqno].addr in Due(s.phase) ==> r.batch < s.batchNo))
  }

  ghost predicate LogOk(s: Queue) {
    && (forall r :: r in s.log ==> RanOk(s, r))
    && (forall i, j :: 0 <= i < j < |s.log| && s.log[i].seqno == s.log[j].seqno ==>
          s.log[i].batch < s.log[j].batch && s.log[i].seqno in s.made && s.made[s.log[i].seqno].repeat)
  }

  /** The timerfd will wake the loop in time for every listed timer. */
  predicate ArmedFor(timers: set<Entry>, fd: TimerFd) {
    match fd
    case Readable => true
    case Armed(deadline, armedAt) => forall e :: e in timers ==> deadline <= Max(e.when, armedAt + 100)
    case Disarmed => timers == {}
  }

  /** While callbacks run the timerfd may be disarmed, but only as long as nothing listed
      is already due. */
  ghost predicate Arming(timers: set<Entry>, fd: TimerFd, phase: Phase) {
    ArmedFor(timers, fd) || (phase.Calling? && forall e :: e in timers ==> phase.now < e.when)
  }

  ghost predicate PhaseOk(phase: Phase) {
    phase.Calling? ==> phase.next <= |phase.batch| && 0 < phase.now && Sorted(phase.batch)
  }

  ghost predicate Inv(s: Queue) {
    && HeapOk(s.heap, s.created, s.made)
    && TwoIndex(s.heap, s.timers, s.active)
    && Owned(s.heap, s.inFlight, s.active, Batch(s.phase))
    && PhaseOk(s.phase)
    && CancelledOk(s) && LogOk(s)
    && Arming(s.timers, s.fd, s.phase)
  }

  // ---------------------------------------------------------------- steps

  /** `first` is `timers_.begin()` after the repeating timers have been put back. */
  datatype Event =
    | New(addr: Addr, when: int, interval: real)
    | Add(addr: Addr, clock: int)
    | Cancel(id: TimerId)
    | Expire
    | Fire(now: int, batch: seq<Entry>)
    | RunNext
    | Finish(clock: int, first: Entry)

  ghost predicate Enabled(s: Queue, e: Event)
    requires Inv(s)
  {
    match e
    case New(addr, _, _) => addr != 0 && addr !in s.heap
    case Add(addr, _) => addr in s.inFlight
    case Cancel(_) => true
    case Expire => s.fd.Armed?
    case Fire(now, batch) => s.phase.Quiet? && !s.fd.Disarmed? && 0 < now && IsExpiredList(batch, s.timers, now)
    case RunNext => s.phase.Calling? && s.phase.next < |s.phase.batch|
    case Finish(_, first) =>
      && s.phase.Calling? && s.phase.next == |s.phase.batch|
      && (NextTimers(s) != {} ==> IsEarliest(first, NextTimers(s)))
  }

  function NewStep(s: Queue, addr: Addr, when: int, interval: real): Queue {
    var q := s.created + 1;
    s.(heap := s.heap[addr := Timer(when, Micros(interval), interval > 0.0, q)], created := q,
       inFlight := s.inFlight + {addr}, made := s.made[q := Made(addr, interval > 0.0)])
  }

  function AddStep(s: Queue, addr: Addr, clock: int): Queue
    requires addr in s.heap
  {
    var when := s.heap[addr].expiration;
    s.(inFlight := s.inFlight - {addr}, timers := s.timers + {Entry(when, addr)},
       active := s.active + {KeyOf(s.heap, addr)},
       fd := if NewEarliest(when, s.timers) then Arm(when, clock) else s.fd)
  }

  predicate InBatch(s: Queue, key: ActiveTimer) {
    key.addr in Addresses(Batch(s.phase)) && key.addr in s.heap && s.heap[key.addr].seqno == key.seqno
  }

  ghost function CancelStep(s: Queue, key: ActiveTimer): Queue
    requires TwoIndex(s.heap, s.timers, s.active)
  {
    if key in s.active then
      s.(timers := s.timers - {Entry(s.heap[key.addr].expiration, key.addr)}, heap := s.heap - {key.addr},
         active := s.active - {key}, cancelled := s.cancelled[key.seqno := s.batchNo])
    else if s.phase.Calling? then
      s.(canceling := s.canceling + {key},
         cancelled := if InBatch(s, key) then s.cancelled[key.seqno := s.batchNo] else s.cancelled)
    else s
  }

  /** `readTimerfd`: if an earlier callback of the same poll round has armed the timerfd anew,
      there is nothing to read, and it stays armed. */
  function AfterRead(fd: TimerFd): TimerFd { if fd.Readable? then Disarmed else fd }

  function FireStep(s: Queue, now: int, batch: seq<Entry>): Queue {
    s.(timers := s.timers - Elements(batch),
       active := (set k | k in s.active && k.addr !in Addresses(batch)),
       canceling := {}, phase := Calling(batch, 0, now), fd := AfterRead(s.fd), batchNo := s.batchNo + 1)
  }

  function RunStep(s: Queue): Queue
    requires s.phase.Calling? && s.phase.next < |s.phase.batch| && s.phase.batch[s.phase.next].addr in s.heap
  {
    s.(phase := s.phase.(next := s.phase.next + 1),
       log := s.log + [Ran(s.heap[s.phase.batch[s.phase.next].addr].seqno, s.batchNo)])
  }

  /** The timers of the batch that `reset` restarts. */
  predicate Survives(s: Queue, a: Addr) {
    a in Addresses(Batch(s.phase)) && a in s.heap && s.heap[a].repeat && KeyOf(s.heap, a) !in s.canceling
  }

  /** `reset` after it has gone through the timers at the addresses `done`. */
  function ResetTimers(s: Queue, done: set<Addr>): set<Entry>
    requires s.phase.Calling?
  {
    s.timers + set a | a in done && Survives(s, a) :: Entry(s.phase.now + s.heap[a].delta, a)
  }

  function ResetHeap(s: Queue, done: set<Addr>): map<Addr, Timer>
    requires s.phase.Calling?
  {
    map a | a in s.heap && (a in done ==> Survives(s, a)) ::
      if a in done then s.heap[a].(expiration := s.phase.now + s.heap[a].delta) else s.heap[a]
  }

  function ResetActive(s: Queue, done: set<Addr>): set<ActiveTimer>
    requires s.phase.Calling?
  {
    s.active + set a | a in done && Survives(s, a) :: KeyOf(s.heap, a)
  }

  function NextTimers(s: Queue): set<Entry>
    requires s.phase.Calling?
  {
    ResetTimers(s, Addresses(s.phase.batch))
  }

  function Restarted(s: Queue): Queue
    requires s.phase.Calling?
  {
    var done := Addresses(s.phase.batch);
    s.(timers := NextTimers(s), heap := ResetHeap(s, done), active := ResetActive(s, done), phase := Quiet)
  }

  function FinishStep(s: Queue, clock: int, first: Entry): Queue
    requires s.phase.Calling?
  {
    Restarted(s).(fd := if NextTimers(s) != {} && first.when > 0 then Arm(first.when, clock) else s.fd)
  }

  ghost function Apply(s: Queue, e: Event): Queue
    requires Inv(s) && Enabled(s, e)
  {
    match e
    case New(addr, when, interval) => NewStep(s, addr, when, interval)
    case Add(addr, clock) => AddStep(s, addr, clock)
    case Cancel(id) => CancelStep(s, ActiveTimer(id.addr, id.sequence))
    case Expire => s.(fd := Readable)
    case Fire(now, batch) => FireStep(s, now, batch)
    case RunNext => RunStep(s)
    case Finish(clock, first) => FinishStep(s, clock, first)
  }

  // ---------------------------------------------------------------- every step keeps the invariant

  lemma NewKeepsHeap(s: Queue, addr: Addr, when: int, interval: real)
    requires Inv(s) && Enabled(s, New(addr, when, interval))
    ensures var r := NewStep(s, addr, when, interval);
      HeapOk(r.heap, r.created, r.made) && TwoIndex(r.heap, r.timers, r.active)
  {
  }

  lemma NewKeepsOwned(s: Queue, addr: Addr, when: int, interval: real)
    requires Inv(s) && Enabled(s, New(addr, when, interval))
    ensures var r := NewStep(s, addr, when, interval); Owned(r.heap, r.inFlight, r.active, Batch(r.phase))
  {
  }

  lemma NewKeepsInv(s: Queue, addr: Addr, when: int, interval: real)
    requires Inv(s) && Enabled(s, New(addr, when, interval))
    ensures Inv(NewStep(s, addr, when, interval))
  {
    NewKeepsHeap(s, addr, when, interval);
    NewKeepsOwned(s, addr, when, interval);
    var r := NewStep(s, addr, when, interval);
    forall x | x in r.log ensures RanOk(r, x) { assert RanOk(s, x); }
  }

  lemma AddKeepsInv(s: Queue, addr: Addr, clock: int)
    requires Inv(s) && Enabled(s, Add(addr, clock))
    ensures Inv(AddStep(s, addr, clock))
  {
  }

  lemma CancelActiveKeepsIndexes(s: Queue, key: ActiveTimer)
    requires Inv(s) && key in s.active
    ensures var r := CancelStep(s, key);
      && HeapOk(r.heap, r.created, r.made)
      && TwoIndex(r.heap, r.timers, r.active)
      && Owned(r.heap, r.inFlight, r.active, Batch(r.phase))
  {
  }

  lemma CancelActiveKeepsCancelled(s: Queue, key: ActiveTimer)
    requires Inv(s) && key in s.active
    ensures CancelledOk(CancelStep(s, key))
  {
  }

  lemma CancelKeepsLog(s: Queue, key: ActiveTimer)
    requires Inv(s)
    ensures LogOk(CancelStep(s, key))
  {
    var r := CancelStep(s, key);
    forall x | x in r.log ensures RanOk(r, x) { assert RanOk(s, x); }
  }

  lemma CancelActiveKeepsInv(s: Queue, key: ActiveTimer)
    requires Inv(s) && key in s.active
    ensures Inv(CancelStep(s, key))
  {
    CancelActiveKeepsIndexes(s, key);
    CancelActiveKeepsCancelled(s, key);
    CancelKeepsLog(s, key);
  }

  lemma CancelOtherKeepsCancelled(s: Queue, key: ActiveTimer)
    requires Inv(s) && key !in s.active
    ensures CancelledOk(CancelStep(s, key))
  {
  }

  lemma CancelOtherKeepsInv(s: Queue, key: ActiveTimer)
    requires Inv(s) && key !in s.active
    ensures Inv(CancelStep(s, key))
  {
    CancelOtherKeepsCancelled(s, key);
    CancelKeepsLog(s, key);
  }

  lemma FireKeepsInv(s: Queue, now: int, batch: seq<Entry>)
    requires Inv(s) && Enabled(s, Fire(now, batch))
    ensures Inv(FireStep(s, now, batch))
  {
  }

  lemma RunKeepsInv(s: Queue)
    requires Inv(s) && Enabled(s, RunNext)
    ensures Inv(RunStep(s))
  {
    RunKeepsLog(s);
  }

  /** The timer whose callback begins was due, and now it is not. */
  lemma NextBegins(s: Queue)
    requires Inv(s) && Enabled(s, RunNext)
    ensures var r, a := RunStep(s), s.phase.batch[s.phase.next].addr;
      && a in Due(s.phase) && a !in Begun(s.phase)
      && Begun(r.phase) == Begun(s.phase) + {a} && Due(r.phase) <= Due(s.phase) && a !in Due(r.phase)
  {
    var a := s.phase.batch[s.phase.next].addr;
    assert a == s.phase.batch[s.phase.next..][0].addr;
  }

  lemma OldRunStaysOk(s: Queue, x: Ran)
    requires Inv(s) && Enabled(s, RunNext) && x in s.log
    ensures RanOk(RunStep(s), x)
  {
    NextBegins(s);
    assert RanOk(s, x);
  }

  lemma NewRunIsOk(s: Queue)
    requires Inv(s) && Enabled(s, RunNext)
    ensures var q := s.heap[s.phase.batch[s.phase.next].addr].seqno; RanOk(RunStep(s), Ran(q, s.batchNo))
  {
    NextBegins(s);
  }

  /** What ran before under the same number ran in an earlier batch, and repeats. */
  lemma EarlierRun(s: Queue, i: nat)
    requires Inv(s) && Enabled(s, RunNext) && i < |s.log|
    requires s.log[i].seqno == s.heap[s.phase.batch[s.phase.next].addr].seqno
    ensures s.log[i].batch < s.batchNo && s.log[i].seqno in s.made && s.made[s.log[i].seqno].repeat
  {
    NextBegins(s);
    assert RanOk(s, s.log[i]);
  }

  lemma RunKeepsLog(s: Queue)
    requires Inv(s) && Enabled(s, RunNext)
    ensures LogOk(RunStep(s))
  {
    var r := RunStep(s);
    var n := |s.log|;
    NewRunIsOk(s);
    forall x | x in r.log ensures RanOk(r, x) {
      if x in s.log { OldRunStaysOk(s, x); }
    }
    forall i, j | 0 <= i < j < |r.log| && r.log[i].seqno == r.log[j].seqno
      ensures r.log[i].batch < r.log[j].batch && r.log[i].seqno in r.made && r.made[r.log[i].seqno].repeat
    {
      assert r.log[i] == s.log[i];
      if j == n { EarlierRun(s, i); } else { assert r.log[j] == s.log[j]; }
    }
  }

  lemma FinishKeepsHeap(s: Queue, done: set<Addr>)
    requires Inv(s) && s.phase.Calling? && done == Addresses(s.phase.batch)
    ensures HeapOk(ResetHeap(s, done), s.created, s.made)
    ensures Owned(ResetHeap(s, done), s.inFlight, ResetActive(s, done), [])
  {
  }

  lemma FinishKeepsTwoIndex(s: Queue, done: set<Addr>)
    requires Inv(s) && s.phase.Calling? && done == Addresses(s.phase.batch)
    ensures TwoIndex(ResetHeap(s, done), ResetTimers(s, done), ResetActive(s, done))
  {
  }

  lemma FinishKeepsHistory(s: Queue, clock: int, first: Entry)
    requires Inv(s) && Enabled(s, Finish(clock, first))
    ensures CancelledOk(FinishStep(s, clock, first)) && LogOk(FinishStep(s, clock, first))
  {
    var r := FinishStep(s, clock, first);
    assert s.phase.batch[..s.phase.next] == s.phase.batch;
    forall x | x in r.log ensures RanOk(r, x) { assert RanOk(s, x); }
  }

  lemma FinishKeepsArming(s: Queue, clock: int, first: Entry)
    requires Inv(s) && Enabled(s, Finish(clock, first))
    ensures var r := FinishStep(s, clock, first); ArmedFor(r.timers, r.fd)
  {
    var r := FinishStep(s, clock, first);
    assert forall e :: e in r.timers && e !in s.timers ==> s.phase.now <= e.when;
    if r.timers != {} && first.when <= 0 {
      assert first in s.timers && ArmedFor(s.timers, s.fd);
    }
  }

  lemma FinishKeepsInv(s: Queue, clock: int, first: Entry)
    requires Inv(s) && Enabled(s, Finish(clock, first))
    ensures Inv(FinishStep(s, clock, first))
  {
    FinishKeepsHeap(s, Addresses(s.phase.batch));
    FinishKeepsTwoIndex(s, Addresses(s.phase.batch));
    FinishKeepsHistory(s, clock, first);
    FinishKeepsArming(s, clock, first);
  }

  lemma StepKeepsInv(s: Queue, e: Event)
    requires Inv(s) && Enabled(s, e)
    ensures Inv(Apply(s, e))
  {
    match e
    case New(addr, when, interval) => NewKeepsInv(s, addr, when, interval);
    case Add(addr, clock) => AddKeepsInv(s, addr, clock);
    case Cancel(id) =>
      var key := ActiveTimer(id.addr, id.sequence);
      if key in s.active { CancelActiveKeepsInv(s, key); } else { CancelOtherKeepsInv(s, key); }
    case Expire =>
      forall x | x in s.log ensures RanOk(Apply(s, e), x) { assert RanOk(s, x); }
    case Fire(now, batch) => FireKeepsInv(s, now, batch);
    case RunNext => RunKeepsInv(s);
    case Finish(clock, first) => FinishKeepsInv(s, clock, first);
  }

  // ---------------------------------------------------------------- whole runs

  ghost predicate Legal(s0: Queue, es: seq<Event>)
    requires Inv(s0)
    decreases |es|, 0
  {
    es == [] || (Legal(s0, es[..|es| - 1]) && Enabled(Exec(s0, es[..|es| - 1]), es[|es| - 1]))
  }

  /** The queue after a run; every run stays inside the invariant. */
  ghost function Exec(s0: Queue, es: seq<Event>): (s: Queue)
    requires Inv(s0) && Legal(s0, es)
    ensures Inv(s)
    decreases |es|, 1
  {
    if es == [] then s0 else
    var p := Exec(s0, es[..|es| - 1]);
    StepKeepsInv(p, es[|es| - 1]);
    Apply(p, es[|es| - 1])
  }

  lemma InitOk()
    ensures Inv(Init())
  {
  }

  /** After any run, between the callbacks of a batch as well: a timer is listed under a time
      exactly when it is active and that is when it expires. */
  lemma IndexesAgree(s0: Queue, es: seq<Event>, a: Addr, when: int)
    requires Inv(s0) && Legal(s0, es)
    ensures var s := Exec(s0, es);
      Entry(when, a) in s.timers <==> a in s.heap && KeyOf(s.heap, a) in s.active && s.heap[a].expiration == when
  {
    var s := Exec(s0, es);
    if a in s.heap && KeyOf(s.heap, a) in s.active && s.heap[a].expiration == when {
      assert Entry(s.heap[a].expiration, a) in s.timers;
    }
  }

  /** Each allocated timer has exactly one owner, and a timer whose callback is about to
      run, or that `reset` is about to look at, is allocated. */
  lemma OneOwner(s: Queue, a: Addr)
    requires Inv(s)
    ensures a in s.heap <==>
      a in s.inFlight || (exists k :: k in s.active && k.addr == a) || a in Addresses(Batch(s.phase))
    ensures !(a in s.inFlight && exists k :: k in s.active && k.addr == a)
    ensures !(a in s.inFlight && a in Addresses(Batch(s.phase)))
    ensures !(a in Addresses(Batch(s.phase)) && exists k :: k in s.active && k.addr == a)
  {
    if a in s.heap && a !in s.inFlight && a !in Addresses(Batch(s.phase)) {
      assert KeyOf(s.heap, a) in s.active && KeyOf(s.heap, a).addr == a;
    }
  }

  /** A freed timer never comes back, even when its address is allocated again, so no timer
      is freed twice. */
  lemma StepKeepsFreed(s: Queue, e: Event, q: int)
    requires Inv(s) && Enabled(s, e)
    requires q in s.made && !Alive(s.heap, s.made, q)
    ensures var r := Apply(s, e); q in r.made && !Alive(r.heap, r.made, q)
  {
  }

  lemma {:induction false} FreedStaysFreed(s0: Queue, es: seq<Event>, q: int)
    requires Inv(s0) && Legal(s0, es)
    requires q in s0.made && !Alive(s0.heap, s0.made, q)
    ensures var r := Exec(s0, es); q in r.made && !Alive(r.heap, r.made, q)
  {
    if es != [] {
      FreedStaysFreed(s0, es[..|es| - 1], q);
      StepKeepsFreed(Exec(s0, es[..|es| - 1]), es[|es| - 1], q);
    }
  }

  // ---------------------------------------------------------------- identifiers

  /** The id of timer `q` names the timer now at its address exactly when that is still
      timer `q` and its number fits an `int`. So a stale id never names a timer that has
      taken over the address, however many timers have been created. */
  lemma IdNamesTimerIff(s: Queue, q: int, a: Addr)
    requires Inv(s) && q in s.made && a in s.heap
    ensures var id := IdOf(s.made[q].addr, q);
      ActiveTimer(id.addr, id.sequence) == KeyOf(s.heap, a) <==> s.heap[a].seqno == q && q < 0x8000_0000
  {
    Int32Range(q);
  }

  /** Cancelling an active timer frees it exactly when its number fits an `int`, and
      leaves every other timer as it was. */
  lemma CancelFreesIff(s: Queue, a: Addr)
    requires Inv(s) && a in s.heap && KeyOf(s.heap, a) in s.active
    ensures var q := s.heap[a].seqno;
      var r := Apply(s, Cancel(IdOf(a, q)));
      && (!Alive(r.heap, r.made, q) <==> q < 0x8000_0000)
      && (forall b :: b in s.heap && b != a ==> b in r.heap && r.heap[b] == s.heap[b])
      && (forall b :: b in s.heap && b != a ==> (KeyOf(s.heap, b) in r.active <==> KeyOf(s.heap, b) in s.active))
  {
    Int32Range(s.heap[a].seqno);
  }

  /** Cancelling with a stale id changes nothing that any later step looks at: it can only
      mark a number that no allocated timer has. */
  lemma StaleCancelIsHarmless(s: Queue, q: int)
    requires Inv(s) && q in s.made && !Alive(s.heap, s.made, q)
    ensures var r := Apply(s, Cancel(IdOf(s.made[q].addr, q)));
      && r == s.(canceling := r.canceling)
      && forall a :: a in s.heap ==> (KeyOf(s.heap, a) in r.canceling <==> KeyOf(s.heap, a) in s.canceling)
  {
    forall a | a in s.heap ensures ActiveTimer(s.made[q].addr, ToInt32(q)) != KeyOf(s.heap, a) {
      IdNamesTimerIff(s, q, a);
    }
  }

  // ---------------------------------------------------------------- cancellation over runs

  /** A cancel by the timer's own id takes effect exactly when the timer has been added, that
      is, unless the functor that will add it has still to run, and its number fits an `int`:
      then it is freed at once or, if its batch is running, marked. */
  lemma CancelTakesEffectIff(s: Queue, a: Addr)
    requires Inv(s) && a in s.heap && s.heap[a].seqno !in s.cancelled
    ensures var q := s.heap[a].seqno;
      var r := Apply(s, Cancel(IdOf(a, q)));
      && (q in r.cancelled <==> a !in s.inFlight && q < 0x8000_0000)
      && (q in r.cancelled ==> a !in r.heap || KeyOf(r.heap, a) in r.canceling)
      && (q !in r.cancelled ==> r == s.(canceling := r.canceling))
  {
    Int32Range(s.heap[a].seqno);
  }

  lemma CancelIsRecorded(s: Queue, a: Addr)
    requires Inv(s) && a in s.heap && a !in s.inFlight && s.heap[a].seqno < 0x8000_0000
    ensures var q := s.heap[a].seqno;
      var r := Apply(s, Cancel(IdOf(a, q)));
      q in r.cancelled && r.cancelled[q] == s.batchNo == r.batchNo
  {
    Int32Range(s.heap[a].seqno);
  }

  lemma Extend(s0: Queue, es: seq<Event>, e: Event)
    requires Inv(s0) && Legal(s0, es) && Enabled(Exec(s0, es), e)
    ensures Legal(s0, es + [e]) && Exec(s0, es + [e]) == Apply(Exec(s0, es), e)
  {
    assert (es + [e])[..|es|] == es;
  }

  const MADE_EARLY := [New(1, 5, 0.0)] + [Cancel(IdOf(1, 1))] + [Add(1, 2)]

  /** The queue after the first two steps, and after the third: the timer is pending. */
  const MADE_ONLY := Queue(
    map[1 := Timer(5, 0, false, 1)], 1, {1}, {}, {}, {}, Quiet, Disarmed, map[1 := Made(1, false)], 0, [], map[])

  const ADDED_LATE := Queue(
    map[1 := Timer(5, 0, false, 1)], 1, {}, {Entry(5, 1)}, {ActiveTimer(1, 1)}, {},
    Quiet, Armed(102, 2), map[1 := Made(1, false)], 0, [], map[])

  lemma MadeOnly()
    ensures NewStep(Init(), 1, 5, 0.0) == MADE_ONLY
    ensures Inv(MADE_ONLY) ==> CancelStep(MADE_ONLY, ActiveTimer(1, 1)) == MADE_ONLY
  {
    assert Micros(0.0) == 0;
  }

  lemma AddedLate()
    ensures AddStep(MADE_ONLY, 1, 2) == ADDED_LATE
  {
  }

  lemma CancelledThenAdded()
    ensures Inv(Init()) && Legal(Init(), MADE_EARLY) && Exec(Init(), MADE_EARLY) == ADDED_LATE
  {
    InitOk();
    MadeOnly();
    AddedLate();
    var e0, e1, e2 := New(1, 5, 0.0), Cancel(IdOf(1, 1)), Add(1, 2);
    assert [] + [e0] == [e0];
    Extend(Init(), [], e0);
    Extend(Init(), [e0], e1);
    Extend(Init(), [e0] + [e1], e2);
  }

  /** And after the timerfd has become readable and the batch has been taken. */
  const FIRED_LATE := ADDED_LATE.(
    timers := {}, active := {}, phase := Calling([Entry(5, 1)], 0, 9), fd := Disarmed, batchNo := 1)

  lemma LateTimerFires()
    ensures IsExpiredList([Entry(5, 1)], ADDED_LATE.timers, 9)
    ensures FireStep(ADDED_LATE.(fd := Readable), 9, [Entry(5, 1)]) == FIRED_LATE
  {
    assert Elements([Entry(5, 1)]) == {Entry(5, 1)};
    assert Entry(5, 1) in [Entry(5, 1)] && Addresses([Entry(5, 1)]) == {1};
  }

  lemma AddedLateFires()
    ensures var es := MADE_EARLY + [Expire] + [Fire(9, [Entry(5, 1)])];
      Inv(Init()) && Legal(Init(), es) && Exec(Init(), es) == FIRED_LATE
  {
    CancelledThenAdded();
    LateTimerFires();
    Extend(Init(), MADE_EARLY, Expire);
    Extend(Init(), MADE_EARLY + [Expire], Fire(9, [Entry(5, 1)]));
  }

  lemma LateTimerRuns()
    ensures FIRED_LATE.phase == Calling([Entry(5, 1)], 0, 9) && 1 in FIRED_LATE.heap
    ensures RunStep(FIRED_LATE).log == [Ran(1, 1)]
  {
  }

  /** A run in which a cancel comes too early: another thread makes a timer, the loop's thread
      cancels it by its id, and then the functor adds it. It runs all the same. */
  lemma CancelledBeforeAdded()
    ensures var es := MADE_EARLY + [Expire] + [Fire(9, [Entry(5, 1)])] + [RunNext];
      Inv(Init()) && Legal(Init(), es) && Exec(Init(), es).log == [Ran(1, 1)]
  {
    AddedLateFires();
    LateTimerRuns();
    Extend(Init(), MADE_EARLY + [Expire] + [Fire(9, [Entry(5, 1)])], RunNext);
  }

  lemma StepKeepsCancelled(s: Queue, e: Event, q: int)
    requires Inv(s) && Enabled(s, e) && q in s.cancelled
    ensures var r := Apply(s, e); q in r.cancelled && r.cancelled[q] == s.cancelled[q]
  {
  }

  lemma {:induction false} CancelledStays(s0: Queue, es: seq<Event>, q: int)
    requires Inv(s0) && Legal(s0, es) && q in s0.cancelled
    ensures var r := Exec(s0, es); q in r.cancelled && r.cancelled[q] == s0.cancelled[q]
  {
    if es != [] {
      CancelledStays(s0, es[..|es| - 1], q);
      StepKeepsCancelled(Exec(s0, es[..|es| - 1]), es[|es| - 1], q);
    }
  }

  /** Once a cancel has taken effect, the timer runs in no later batch, in any run: not
      when it cancelled itself, and not when another callback of its batch cancelled it. */
  lemma CancelledNeverRunsAgain(s: Queue, a: Addr, es: seq<Event>)
    requires Inv(s) && a in s.heap && a !in s.inFlight && s.heap[a].seqno < 0x8000_0000
    requires var r := Apply(s, Cancel(IdOf(a, s.heap[a].seqno))); Inv(r) && Legal(r, es)
    ensures var r := Apply(s, Cancel(IdOf(a, s.heap[a].seqno)));
      forall x :: x in Exec(r, es).log && x.seqno == s.heap[a].seqno ==> x.batch <= s.batchNo
  {
    var q := s.heap[a].seqno;
    var r := Apply(s, Cancel(IdOf(a, q)));
    CancelIsRecorded(s, a);
    CancelledStays(r, es, q);
    forall x | x in Exec(r, es).log && x.seqno == q ensures x.batch <= s.batchNo {
      assert RanOk(Exec(r, es), x);
    }
  }

  /** In any run a timer runs at most once in a batch, and a one-shot timer at most once. */
  lemma RunsOncePerBatch(s0: Queue, es: seq<Event>, i: nat, j: nat)
    requires Inv(s0) && Legal(s0, es)
    requires var log := Exec(s0, es).log; i < j < |log| && log[i].seqno == log[j].seqno
    ensures var s := Exec(s0, es);
      s.log[i].batch < s.log[j].batch && s.log[i].seqno in s.made && s.made[s.log[i].seqno].repeat
  {
  }

  /** At the end of `handleRead` a timer of the batch is pending again, one interval after
      the reading that fired it, exactly when it repeats and was not cancelled meanwhile;
      otherwise it has been freed. */
  lemma RepeatersArePending(s: Queue, clock: int, first: Entry, a: Addr)
    requires Inv(s) && Enabled(s, Finish(clock, first)) && a in Addresses(s.phase.batch)
    ensures var r := Apply(s, Finish(clock, first));
      if s.heap[a].repeat && KeyOf(s.heap, a) !in s.canceling
      then KeyOf(s.heap, a) in r.active && Entry(s.phase.now + s.heap[a].delta, a) in r.timers
           && a in r.heap && r.heap[a].seqno == s.heap[a].seqno
      else a !in r.heap
  {
  }

  // ---------------------------------------------------------------- times

  /** A new timer expires when it was asked to; it repeats exactly if its interval is positive, and
      then it keeps that interval in microseconds. No other timer changes, and none is listed. */
  lemma NewTimerIs(s: Queue, addr: Addr, when: int, interval: real)
    requires Inv(s) && Enabled(s, New(addr, when, interval))
    ensures var r := Apply(s, New(addr, when, interval));
      && addr in r.heap && addr in r.inFlight && r.heap[addr].expiration == when
      && r.heap[addr].seqno == s.created + 1 == r.created
      && (r.heap[addr].repeat <==> interval > 0.0)
      && (interval > 0.0 ==> IsMicrosOf(r.heap[addr].delta, interval))
      && r.heap - {addr} == s.heap && r.timers == s.timers && r.active == s.active && r.fd == s.fd
  {
  }

  /** An allocated timer keeps its interval as long as it lives, and its expiration, too, unless its
      batch has been run and it is put back. */
  lemma StepKeepsTimer(s: Queue, e: Event, a: Addr)
    requires Inv(s) && Enabled(s, e) && a in s.heap
    ensures var r := Apply(s, e);
      a in r.heap && r.heap[a].seqno == s.heap[a].seqno ==>
        && r.heap[a].delta == s.heap[a].delta && r.heap[a].repeat == s.heap[a].repeat
        && (r.heap[a].expiration == s.heap[a].expiration || (e.Finish? && a in Addresses(s.phase.batch)))
  {
  }

  lemma StepKeepsMade(s: Queue, e: Event, q: int)
    requires Inv(s) && Enabled(s, e) && q in s.made
    ensures q in Apply(s, e).made && Apply(s, e).made[q] == s.made[q]
  {
    assert q <= s.created;
  }

  lemma {:induction false} MadeStays(s0: Queue, es: seq<Event>, q: int)
    requires Inv(s0) && Legal(s0, es) && q in s0.made
    ensures q in Exec(s0, es).made && Exec(s0, es).made[q] == s0.made[q]
  {
    if es != [] {
      MadeStays(s0, es[..|es| - 1], q);
      StepKeepsMade(Exec(s0, es[..|es| - 1]), es[|es| - 1], q);
    }
  }

  lemma {:induction false} TimerKeepsInterval(s0: Queue, es: seq<Event>, a: Addr)
    requires Inv(s0) && Legal(s0, es) && a in s0.heap
    requires a in Exec(s0, es).heap && Exec(s0, es).heap[a].seqno == s0.heap[a].seqno
    ensures var r := Exec(s0, es); r.heap[a].delta == s0.heap[a].delta && r.heap[a].repeat == s0.heap[a].repeat
  {
    if es != [] {
      var prefix, e, q := es[..|es| - 1], es[|es| - 1], s0.heap[a].seqno;
      MadeStays(s0, prefix, q);
      LivedBefore(Exec(s0, prefix), e, a, q);
      TimerKeepsInterval(s0, prefix, a);
      StepKeepsTimer(Exec(s0, prefix), e, a);
    }
  }

  lemma LivedBefore(s: Queue, e: Event, a: Addr, q: int)
    requires Inv(s) && Enabled(s, e) && q in s.made && s.made[q].addr == a
    requires a in Apply(s, e).heap && Apply(s, e).heap[a].seqno == q
    ensures a in s.heap && s.heap[a].seqno == q
  {
    StepKeepsInv(s, e);
    if !Alive(s.heap, s.made, q) { StepKeepsFreed(s, e, q); }
  }

  /** A timer made with an interval is pending again, each time its batch has been run, that many
      microseconds after the reading of the clock that fired it, unless it has been cancelled
      meanwhile; a timer made without one, and a cancelled one, is gone. In any run. */
  lemma PendingAgainAfterInterval(s: Queue, addr: Addr, when: int, interval: real,
                                  es: seq<Event>, t: Queue, clock: int, first: Entry)
    requires Inv(s) && Enabled(s, New(addr, when, interval))
    requires var r := Apply(s, New(addr, when, interval)); Inv(r) && Legal(r, es) && t == Exec(r, es)
    requires Inv(t) && Enabled(t, Finish(clock, first)) && InBatch(t, ActiveTimer(addr, s.created + 1))
    ensures var u := Apply(t, Finish(clock, first));
      if interval > 0.0 && ActiveTimer(addr, s.created + 1) !in t.canceling
      then exists p :: Entry(p, addr) in u.timers && IsMicrosOf(p - t.phase.now, interval)
      else addr !in u.heap
  {
    NewTimerIs(s, addr, when, interval);
    TimerKeepsInterval(Apply(s, New(addr, when, interval)), es, addr);
    RepeatersArePending(t, clock, first, addr);
    var p := t.phase.now + t.heap[addr].delta;
    assert p - t.phase.now == t.heap[addr].delta;
  }

  /** Adding lists a timer under the time when it expires, and arms the timerfd for it exactly if
      it expires before every other; no timer and no other entry changes. */
  lemma AddDecides(s: Queue, addr: Addr, clock: int)
    requires Inv(s) && Enabled(s, Add(addr, clock))
    ensures var r, when := Apply(s, Add(addr, clock)), s.heap[addr].expiration;
      && r.heap == s.heap && r.timers == s.timers + {Entry(when, addr)}
      && r.fd == if forall e :: e in s.timers ==> when < e.when
                 then Armed(if when < clock + 100 then clock + 100 else when, clock) else s.fd
  {
  }

  /** Firing takes the timers that are due out of the list and no others, and remembers the reading
      of the clock; none of them is cancelled yet, and a timerfd that has been read is disarmed. */
  lemma FireDecides(s: Queue, now: int, batch: seq<Entry>)
    requires Inv(s) && Enabled(s, Fire(now, batch))
    ensures var r := Apply(s, Fire(now, batch));
      && (forall e :: e in r.timers <==> e in s.timers && now < e.when)
      && (forall e :: e in Batch(r.phase) <==> e in s.timers && e.when <= now)
      && r.phase.Calling? && r.phase.now == now && r.phase.next == 0 && r.canceling == {} && r.heap == s.heap
      && r.fd == if s.fd.Readable? then Disarmed else s.fd
  {
  }

  /** The callbacks started so far are those of the first timers of the batch, in its order, which
      is that of their expirations. */
  ghost predicate RanInOrder(s: Queue) {
    s.phase.Calling? && s.phase.next <= |s.phase.batch| ==>
      && s.phase.next <= |s.log|
      && forall k :: 0 <= k < s.phase.next ==> RanAs(s, k)
  }

  predicate RanAs(s: Queue, k: nat)
    requires s.phase.Calling? && k < s.phase.next <= |s.phase.batch| && s.phase.next <= |s.log|
  {
    var a := s.phase.batch[k].addr;
    a in s.heap && s.log[|s.log| - s.phase.next + k] == Ran(s.heap[a].seqno, s.batchNo)
  }

  lemma BatchStays(s: Queue, e: Event, a: Addr)
    requires Inv(s) && Enabled(s, e) && !e.Finish? && a in Addresses(Batch(s.phase))
    ensures a in s.heap && a in Apply(s, e).heap && Apply(s, e).heap[a].seqno == s.heap[a].seqno
  {
  }

  /** No step but the start of a callback touches log, batch and progress of a batch. */
  lemma ProgressStays(s: Queue, e: Event)
    requires Inv(s) && Enabled(s, e) && s.phase.Calling? && !e.RunNext? && !e.Finish?
    ensures var r := Apply(s, e); r.phase == s.phase && r.log == s.log && r.batchNo == s.batchNo
  {
  }

  lemma StillRanAs(s: Queue, e: Event, k: nat)
    requires Inv(s) && Enabled(s, e) && RanInOrder(s) && s.phase.Calling? && !e.Finish?
    requires k < Apply(s, e).phase.next <= |s.phase.batch|
    ensures Apply(s, e).phase.next <= |Apply(s, e).log| && RanAs(Apply(s, e), k)
  {
    assert k < s.phase.next ==> RanAs(s, k);
    BatchStays(s, e, s.phase.batch[k].addr);
    if !e.RunNext? { ProgressStays(s, e); }
  }

  lemma StepKeepsRanInOrder(s: Queue, e: Event)
    requires Inv(s) && Enabled(s, e) && RanInOrder(s)
    ensures RanInOrder(Apply(s, e))
  {
    var r := Apply(s, e);
    if r.phase.Calling? && !e.Fire? {
      if !e.RunNext? { ProgressStays(s, e); }
      forall k | 0 <= k < r.phase.next ensures RanAs(r, k) {
        StillRanAs(s, e, k);
      }
    }
  }

  /** In any run, when the callbacks of a batch have been called, the last entries of the log are
      the timers of the batch, each once, in the order of their expirations. */
  lemma {:induction false} EveryDueTimerRuns(s0: Queue, es: seq<Event>)
    requires Inv(s0) && RanInOrder(s0) && Legal(s0, es)
    ensures RanInOrder(Exec(s0, es))
    ensures var s := Exec(s0, es); s.phase.Calling? ==> Sorted(s.phase.batch)
  {
    if es != [] {
      EveryDueTimerRuns(s0, es[..|es| - 1]);
      StepKeepsRanInOrder(Exec(s0, es[..|es| - 1]), es[|es| - 1]);
    }
  }

  /** After the callbacks the timerfd is armed for the earliest timer, if there is one that can
      expire, and otherwise left alone. */
  lemma FinishArms(s: Queue, clock: int, first: Entry)
    requires Inv(s) && Enabled(s, Finish(clock, first))
    ensures var r := Apply(s, Finish(clock, first));
      && r.phase.Quiet?
      && (r.timers == {} ==> r.fd == s.fd)
      && (r.timers != {} ==>
            && IsEarliest(first, r.timers)
            && r.fd == if first.when > 0
                       then Armed(if first.when < clock + 100 then clock + 100 else first.when, clock) else s.fd)
  {
  }

  /** Between two events of the loop, a pending timer always has the timerfd readable or
      armed no later than the larger of its expiration and 100 microseconds after the
      arming; no assumption on the expirations is needed, only a clock that reads above 0. */
  lemma TimersWakeInTime(s0: Queue, es: seq<Event>)
    requires Inv(s0) && Legal(s0, es) && Exec(s0, es).phase.Quiet?
    ensures var s := Exec(s0, es); ArmedFor(s.timers, s.fd)
  {
    var s := Exec(s0, es);
    QuietIsArmed(s.timers, s.fd, s.phase);
  }

  lemma QuietIsArmed(timers: set<Entry>, fd: TimerFd, phase: Phase)
    requires Arming(timers, fd, phase) && phase.Quiet?
    ensures ArmedFor(timers, fd)
  {
  }

  /** One turn of the loop of `reset` on the timer at `a`. */
  predicate ResetTurn(a: Addr, now: int, canceling: set<ActiveTimer>,
      heap0: map<Addr, Timer>, timers0: set<Entry>, active0: set<ActiveTimer>,
      heap: map<Addr, Timer>, timers: set<Entry>, active: set<ActiveTimer>)
    requires a in heap0
  {
    if heap0[a].repeat && KeyOf(heap0, a) !in canceling then
      && heap == heap0[a := heap0[a].(expiration := now + heap0[a].delta)]
      && timers == timers0 + {Entry(now + heap0[a].delta, a)}
      && active == active0 + {KeyOf(heap0, a)}
    else heap == heap0 - {a} && timers == timers0 && active == active0
  }

  lemma ResetOne(s: Queue, done: set<Addr>, a: Addr,
                 heap: map<Addr, Timer>, timers: set<Entry>, active: set<ActiveTimer>)
    requires s.phase.Calling? && a in Addresses(s.phase.batch) && a in s.heap && a !in done
    requires ResetTurn(a, s.phase.now, s.canceling,
      ResetHeap(s, done), ResetTimers(s, done), ResetActive(s, done), heap, timers, active)
    ensures heap == ResetHeap(s, done + {a})
    ensures timers == ResetTimers(s, done + {a}) && active == ResetActive(s, done + {a})
  {
    assert ResetHeap(s, done)[a] == s.heap[a];
  }

  lemma ResetKeepsListed(s: Queue)
    requires s.phase.Calling?
    requires Owned(s.heap, s.inFlight, s.active, s.phase.batch) && TwoIndex(s.heap, s.timers, s.active)
    ensures var done := Addresses(s.phase.batch);
      forall e :: e in ResetTimers(s, done) ==>
        e.addr in ResetHeap(s, done) && ResetHeap(s, done)[e.addr].expiration == e.when
  {
  }

  lemma FirstIsListed(s: Queue, timers: seq<Entry>)
    requires s.phase.Calling? && Sorted(timers) && Elements(timers) == NextTimers(s)
    requires Owned(s.heap, s.inFlight, s.active, s.phase.batch) && TwoIndex(s.heap, s.timers, s.active)
    ensures timers == [] <==> NextTimers(s) == {}
    ensures timers != [] ==> var heap := ResetHeap(s, Addresses(s.phase.batch));
      && timers[0].addr in heap && heap[timers[0].addr].expiration == timers[0].when
      && IsEarliest(timers[0], NextTimers(s))
  {
    ResetKeepsListed(s);
    if timers != [] { assert timers[0] in Elements(timers); }
  }

  /** What the destructor frees is all but the timers whose functor has not run yet. */
  lemma ListedOrInFlight(s: Queue, a: Addr)
    requires Inv(s) && s.phase.Quiet? && a in s.heap
    ensures (exists e :: e in s.timers && e.addr == a) <==> a !in s.inFlight
  {
    if a !in s.inFlight { assert Entry(s.heap[a].expiration, a) in s.timers; }
  }

  lemma SplitSorted(es: seq<Entry>, end: nat)
    requires Sorted(es) && end <= |es|
    ensures Sorted(es[..end]) && Sorted(es[end..])
    ensures Elements(es[end..]) == Elements(es) - Elements(es[..end])
  {
    forall e | e in es ensures e in es[..end] <==> e !in es[end..] {
      var i :| 0 <= i < |es| && es[i] == e;
      if i < end { assert es[..end][i] == e; } else { assert es[end..][i - end] == e; }
    }
  }

  // ---------------------------------------------------------------- the queue itself

  /** The queue's fields, with the timers kept as an ordered list. `inFlight`, `phase` and
      `timerfd` belong to the functor queue, to the call of `handleRead` in progress and to
      the kernel. */
  class TimerQueue {
    var heap: map<Addr, Timer>
    var numCreated: int
    var timers: seq<Entry>
    var activeTimers: set<ActiveTimer>
    var cancelingTimers: set<ActiveTimer>
    var callingExpiredTimers: bool
    ghost var inFlight: set<Addr>
    ghost var phase: Phase
    ghost var timerfd: TimerFd
    ghost var made: map<int, Made>
    ghost var batchNo: nat
    ghost var log: seq<Ran>
    ghost var cancelled: map<int, nat>

    ghost function St(): Queue reads this {
      Queue(heap, numCreated, inFlight, Elements(timers), activeTimers, cancelingTimers,
            phase, timerfd, made, batchNo, log, cancelled)
    }

    ghost predicate Valid() reads this {
      Sorted(timers) && callingExpiredTimers == phase.Calling?
    }

    constructor ()
      ensures Valid() && St() == Init()
    {
      heap, numCreated, inFlight, timers, activeTimers, cancelingTimers := map[], 0, {}, [], {}, {};
      callingExpiredTimers, phase, timerfd := false, Quiet, Disarmed;
      made, batchNo, log, cancelled := map[], 0, [], map[];
    }

    method AddTimer(addr: Addr, when: int, interval: real) returns (id: TimerId)
      requires Valid() && addr != 0 && addr !in heap
      modifies this
      ensures Valid() && St() == NewStep(old(St()), addr, when, interval)
      ensures id == IdOf(addr, numCreated) && numCreated == old(numCreated) + 1
      ensures heap[addr].expiration == when && (heap[addr].repeat <==> interval > 0.0)
      ensures interval > 0.0 ==> IsMicrosOf(heap[addr].delta, interval)
    {
      numCreated := numCreated + 1;
      heap := heap[addr := Timer(when, Micros(interval), interval > 0.0, numCreated)];
      made := made[numCreated := Made(addr, interval > 0.0)];
      inFlight := inFlight + {addr};
      id := IdOf(addr, numCreated);
    }

    /** Inserts into both indexes; tells whether the new timer is due before all others. */
    method Insert(addr: Addr) returns (earliestChanged: bool)
      requires Sorted(timers) && addr in heap
      modifies this`timers, this`activeTimers
      ensures Sorted(timers) && Elements(timers) == old(Elements(timers)) + {Entry(heap[addr].expiration, addr)}
      ensures activeTimers == old(activeTimers) + {KeyOf(heap, addr)}
      ensures earliestChanged <==> NewEarliest(heap[addr].expiration, old(Elements(timers)))
    {
      var when := heap[addr].expiration;
      earliestChanged := timers == [] || when < timers[0].when;
      var entry := Entry(when, addr);
      var at := 0;
      while at < |timers| && Before(timers[at], entry)
        invariant at <= |timers| && forall i :: 0 <= i < at ==> Before(timers[i], entry)
      {
        at := at + 1;
      }
      if at == |timers| || timers[at] != entry {
        timers := timers[..at] + [entry] + timers[at..];
      }
      activeTimers := activeTimers + {KeyOf(heap, addr)};
    }

    method AddTimerInLoop(addr: Addr, clock: int)
      requires Valid() && addr in heap
      modifies this
      ensures Valid() && St() == AddStep(old(St()), addr, clock)
    {
      inFlight := inFlight - {addr};
      var earliestChanged := Insert(addr);
      if earliestChanged {
        timerfd := Arm(heap[addr].expiration, clock);
      }
    }

    method CancelInLoop(id: TimerId)
      requires Valid() && TwoIndex(heap, Elements(timers), activeTimers)
      modifies this
      ensures Valid() && St() == CancelStep(old(St()), ActiveTimer(id.addr, id.sequence))
    {
      var key := ActiveTimer(id.addr, id.sequence);
      if key in activeTimers {
        Erase(Entry(heap[key.addr].expiration, key.addr));
        heap := heap - {key.addr};
        activeTimers := activeTimers - {key};
        cancelled := cancelled[key.seqno := batchNo];
      } else if callingExpiredTimers {
        if InBatch(St(), key) { cancelled := cancelled[key.seqno := batchNo]; }
        cancelingTimers := cancelingTimers + {key};
      }
    }

    method Erase(entry: Entry)
      requires Sorted(timers)
      modifies this`timers
      ensures Sorted(timers) && Elements(timers) == old(Elements(timers)) - {entry}
    {
      var at := 0;
      while at < |timers| && timers[at] != entry
        invariant at <= |timers| && entry !in timers[..at]
      {
        at := at + 1;
      }
      if at < |timers| {
        timers := timers[..at] + timers[at + 1..];
      }
    }

    /** Splits off exactly the timers that are due, in order, from both indexes. */
    method GetExpired(now: int) returns (expired: seq<Entry>)
      requires Sorted(timers) && TwoIndex(heap, Elements(timers), activeTimers)
      modifies this`timers, this`activeTimers
      ensures Sorted(timers) && IsExpiredList(expired, old(Elements(timers)), now)
      ensures Elements(timers) == old(Elements(timers)) - Elements(expired)
      ensures activeTimers == set k | k in old(activeTimers) && k.addr !in Addresses(expired)
    {
      var end := 0;
      while end < |timers| && (timers[end].when < now || (timers[end].when == now && timers[end].addr < UINTPTR_MAX))
        invariant end <= |timers| && forall i :: 0 <= i < end ==> timers[i].when <= now
      {
        end := end + 1;
      }
      expired := timers[..end];
      SplitSorted(timers, end);
      timers := timers[end..];
      for i := 0 to |expired|
        invariant timers == old(timers)[end..]
        invariant activeTimers == set k | k in old(activeTimers) && k.addr !in Addresses(expired[..i])
      {
        assert expired[i] in old(timers);
        activeTimers := activeTimers - {KeyOf(heap, expired[i].addr)};
      }
      assert expired[..|expired|] == expired;
    }

    /** `handleRead` up to its first callback. */
    method BeginHandleRead(now: int) returns (expired: seq<Entry>)
      requires Valid() && TwoIndex(heap, Elements(timers), activeTimers)
      modifies this
      ensures Valid() && IsExpiredList(expired, old(Elements(timers)), now)
      ensures St() == FireStep(old(St()), now, expired)
    {
      timerfd := AfterRead(timerfd);
      expired := GetExpired(now);
      callingExpiredTimers := true;
      cancelingTimers := {};
      phase := Calling(expired, 0, now);
      batchNo := batchNo + 1;
    }

    /** The next callback of the batch starts; what it does are further steps. */
    method StartCallback(entry: Entry)
      requires Valid() && phase.Calling? && phase.next < |phase.batch|
      requires entry == phase.batch[phase.next] && entry.addr in heap
      modifies this`phase, this`log
      ensures Valid() && St() == RunStep(old(St()))
    {
      log := log + [Ran(heap[entry.addr].seqno, batchNo)];
      phase := phase.(next := phase.next + 1);
    }

    /** `reset`, and the end of `handleRead`. */
    method Reset(expired: seq<Entry>, now: int, clock: int) returns (ghost first: Entry)
      requires Valid() && phase == Calling(expired, |expired|, now)
      requires Owned(heap, inFlight, activeTimers, expired)
      requires TwoIndex(heap, Elements(timers), activeTimers)
      modifies this
      ensures Valid() && (timers != [] ==> IsEarliest(first, NextTimers(old(St()))))
      ensures St() == FinishStep(old(St()), clock, first)
    {
      RestartAll(expired, now);
      FirstIsListed(old(St()), timers);
      first := if timers == [] then Entry(0, 0) else timers[0];
      ArmForEarliest(clock);
    }

    method RestartAll(expired: seq<Entry>, now: int)
      requires Valid() && phase == Calling(expired, |expired|, now)
      requires forall i :: 0 <= i < |expired| ==> expired[i].addr in heap
      requires forall i, j :: 0 <= i < j < |expired| ==> expired[i].addr != expired[j].addr
      modifies this
      ensures Valid() && timerfd == old(timerfd) && St() == Restarted(old(St()))
    {
      RestartOrFree(expired, now, St());
      callingExpiredTimers := false;
      phase := Quiet;
    }

    method RestartOrFree(expired: seq<Entry>, now: int, ghost s: Queue)
      requires Sorted(timers) && s == St() && phase == Calling(expired, |expired|, now)
      requires forall i :: 0 <= i < |expired| ==> expired[i].addr in heap
      requires forall i, j :: 0 <= i < j < |expired| ==> expired[i].addr != expired[j].addr
      modifies this`timers, this`heap, this`activeTimers
      ensures Sorted(timers) && Elements(timers) == NextTimers(s)
      ensures heap == ResetHeap(s, Addresses(expired)) && activeTimers == ResetActive(s, Addresses(expired))
    {
      for i := 0 to |expired|
        invariant Sorted(timers) && Elements(timers) == ResetTimers(s, Addresses(expired[..i]))
        invariant heap == ResetHeap(s, Addresses(expired[..i]))
        invariant activeTimers == ResetActive(s, Addresses(expired[..i]))
      {
        var a := expired[i].addr;
        assert a !in Addresses(expired[..i]);
        RestartOrFreeOne(a, now);
        ResetOne(s, Addresses(expired[..i]), a, heap, Elements(timers), activeTimers);
        assert Addresses(expired[..i + 1]) == Addresses(expired[..i]) + {a};
      }
      assert expired[..|expired|] == expired;
    }

    method RestartOrFreeOne(a: Addr, now: int)
      requires Sorted(timers) && a in heap
      modifies this`timers, this`heap, this`activeTimers
      ensures Sorted(timers)
      ensures ResetTurn(a, now, cancelingTimers, old(heap), old(Elements(timers)), old(activeTimers),
                        heap, Elements(timers), activeTimers)
    {
      if heap[a].repeat && KeyOf(heap, a) !in cancelingTimers {
        heap := heap[a := heap[a].(expiration := now + heap[a].delta)];
        var _ := Insert(a);
      } else {
        heap := heap - {a};
      }
    }

    method ArmForEarliest(clock: int)
      requires timers != [] ==> timers[0].addr in heap && heap[timers[0].addr].expiration == timers[0].when
      modifies this`timerfd
      ensures timerfd == if timers != [] && timers[0].when > 0 then Arm(timers[0].when, clock) else old(timerfd)
    {
      if timers != [] && heap[timers[0].addr].expiration > 0 {
        timerfd := Arm(heap[timers[0].addr].expiration, clock);
      }
    }

    /** The destructor frees every listed timer, each of them once. */
    method Destroy()
      requires forall e :: e in timers ==> e.addr in heap
      requires forall i, j :: 0 <= i < j < |timers| ==> timers[i].addr != timers[j].addr
      modifies this`heap
      ensures heap == map a | a in old(heap) && a !in Addresses(timers) :: old(heap)[a]
    {
      for i := 0 to |timers|
        invariant heap == map a | a in old(heap) && a !in Addresses(timers[..i]) :: old(heap)[a]
      {
        var a := timers[i].addr;
        assert Addresses(timers[..i + 1]) == Addresses(timers[..i]) + {a};
        assert a in heap;
        heap := heap - {a};
      }
      assert timers[..|timers|] == timers;
    }
  }
}
