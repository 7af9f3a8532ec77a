/**
 The elastic worker pool. Every critical section of the pool's mutex is one atomic
 step; between two steps any thread may run. The pool's counters are compared with
 the program counters of all the workers ever created.
 */
module ThreadPools {

  type ThreadId = nat
  type Task = nat

  /** `maxTasks_ == -1` on a `size_t`: no bound on the queue. */
  const NO_TASK_LIMIT: nat := 0xFFFF_FFFF_FFFF_FFFF

  /** Where a worker is between two critical sections.
      `Awake` has left the wait set (notified, timed out or spuriously woken) and has not
      rechecked the predicate yet; `Retired` returned on a timeout and waits to be joined;
      `Quit` returned because the pool is being destroyed. */
  datatype Pc = Starting | Waiting | Awake | Running(task: Task) | Retired | Quit | Joined

  datatype Worker = Worker(tid: ThreadId, pc: Pc)

  datatype Pool = Pool(
    quit: bool, current: int, idle: int, maxThreads: nat, maxTasks: nat,
    tasks: seq<Task>, finished: seq<ThreadId>, threads: map<ThreadId, nat>,
    workers: seq<Worker>, notifiedAll: bool)

  function Init(maxThreads: nat, maxTasks: nat): Pool {
    Pool(false, 0, 0, maxThreads, maxTasks, [], [], map[], [], false)
  }

  // ---------------------------------------------------------------- counting workers

  function Total(f: Pc -> nat, ws: seq<Worker>): nat {
    if ws == [] then 0 else Total(f, ws[..|ws| - 1]) + f(ws[|ws| - 1].pc)
  }

  function InWait(pc: Pc): nat { if pc.Waiting? || pc.Awake? then 1 else 0 }
  function Live(pc: Pc): nat { if pc.Starting? || pc.Waiting? || pc.Awake? || pc.Running? then 1 else 0 }
  function IsRetired(pc: Pc): nat { if pc.Retired? then 1 else 0 }
  function HasQuit(pc: Pc): nat { if pc.Quit? then 1 else 0 }
  function Unjoined(pc: Pc): nat { if pc.Joined? then 0 else 1 }

  /** Critical sections and wake-ups a worker can still go through without taking a task. */
  function StepsLeft(pc: Pc): nat {
    match pc
    case Waiting => 2
    case Running(_) => 2
    case Awake => 1
    case Starting => 1
    case _ => 0
  }

  lemma {:induction false} TotalUpdate(f: Pc -> nat, ws: seq<Worker>, i: nat, w: Worker)
    requires i < |ws|
    ensures Total(f, ws[i := w]) == Total(f, ws) - f(ws[i].pc) + f(w.pc)
  {
    var n := |ws| - 1;
    if i == n {
      assert ws[i := w][..n] == ws[..n];
    } else {
      assert ws[i := w][..n] == ws[..n][i := w];
      TotalUpdate(f, ws[..n], i, w);
    }
  }

  lemma TotalAppend(f: Pc -> nat, ws: seq<Worker>, w: Worker)
    ensures Total(f, ws + [w]) == Total(f, ws) + f(w.pc)
  {
    assert (ws + [w])[..|ws|] == ws;
  }

  /** A pointwise relation between two worker lists carries over to the totals. */
  lemma {:induction false} TotalCompare(f: Pc -> nat, us: seq<Worker>, ws: seq<Worker>)
    requires |us| == |ws| && forall i :: 0 <= i < |us| ==> f(us[i].pc) <= f(ws[i].pc)
    ensures Total(f, us) <= Total(f, ws)
  {
    if us != [] {
      TotalCompare(f, us[..|us| - 1], ws[..|ws| - 1]);
    }
  }

  lemma {:induction false} TotalWitness(f: Pc -> nat, ws: seq<Worker>)
    ensures Total(f, ws) > 0 <==> exists i :: 0 <= i < |ws| && f(ws[i].pc) > 0
  {
    if ws != [] {
      var n := |ws| - 1;
      TotalWitness(f, ws[..n]);
      if Total(f, ws[..n]) > 0 {
        var i :| 0 <= i < n && f(ws[..n][i].pc) > 0;
        assert f(ws[i].pc) > 0;
      }
      if i :| 0 <= i < |ws| && f(ws[i].pc) > 0 {
        assert i == n || f(ws[..n][i].pc) > 0;
      }
    }
  }

  lemma {:induction false} TotalsSplit(ws: seq<Worker>)
    ensures Total(Unjoined, ws) == Total(Live, ws) + Total(IsRetired, ws) + Total(HasQuit, ws)
  {
    if ws != [] { TotalsSplit(ws[..|ws| - 1]); }
  }

  // ---------------------------------------------------------------- invariant

  ghost predicate Counted(s: Pool) {
    && s.idle == Total(InWait, s.workers)
    && s.current == Total(Live, s.workers)
    && |s.finished| == Total(IsRetired, s.workers)
    && |s.threads| == Total(Unjoined, s.workers)
  }

  /** The table's entry for thread `t` leads to a worker with that id, not joined yet. */
  ghost predicate LeadsToWorker(threads: map<ThreadId, nat>, workers: seq<Worker>, t: ThreadId) {
    t in threads && threads[t] < |workers| && workers[threads[t]].tid == t && !workers[threads[t]].pc.Joined?
  }

  /** Worker `i` is found under its own id until it is joined. */
  ghost predicate Listed(threads: map<ThreadId, nat>, workers: seq<Worker>, i: nat) {
    i < |workers| && (workers[i].pc.Joined? || (workers[i].tid in threads && threads[workers[i].tid] == i))
  }

  /** The thread table holds exactly the threads not joined yet, each under its own id. */
  ghost predicate Mapped(threads: map<ThreadId, nat>, workers: seq<Worker>) {
    && (forall t {:trigger LeadsToWorker(threads, workers, t)} :: t in threads ==> LeadsToWorker(threads, workers, t))
    && (forall i {:trigger Listed(threads, workers, i)} :: 0 <= i < |workers| ==> Listed(threads, workers, i))
  }

  /** Every id waiting to be joined is in the table, only once, and its thread has returned. */
  ghost predicate Joinable(finished: seq<ThreadId>, threads: map<ThreadId, nat>, workers: seq<Worker>) {
    && (forall j, k :: 0 <= j < k < |finished| ==> finished[j] != finished[k])
    && (forall k :: 0 <= k < |finished| ==>
          finished[k] in threads && threads[finished[k]] < |workers| && workers[threads[finished[k]]].pc.Retired?)
  }

  ghost predicate NobodyWaits(workers: seq<Worker>) {
    forall i :: 0 <= i < |workers| ==> !workers[i].pc.Waiting?
  }

  ghost predicate Inv(s: Pool) {
    && Counted(s) && Mapped(s.threads, s.workers) && Joinable(s.finished, s.threads, s.workers)
    && (s.notifiedAll ==> s.quit && NobodyWaits(s.workers))
  }

  predicate IsBusy(pc: Pc) { pc.Starting? || pc.Awake? || pc.Running? }

  /** No stranded task: while tasks are queued, some worker will look at the queue again. */
  ghost predicate Served(s: Pool) {
    s.tasks != [] ==> exists i :: 0 <= i < |s.workers| && IsBusy(s.workers[i].pc)
  }

  // ---------------------------------------------------------------- steps

  /** `pick` is the waiter that `notify_one` wakes, if there is one; `tid` the id the
      operating system gives to a new thread, if one is created. */
  datatype Event =
    | Submit(task: Task, tid: ThreadId, pick: nat)
    | SetMaxThreads(n: nat)
    | SetMaxTasks(n: nat)
    | WakeUp(i: nat)
    | Enter(i: nat, timedOut: bool)
    | Return(i: nat)
    | BeginQuit
    | NotifyAll

  ghost predicate HasWaiter(s: Pool) {
    exists i :: 0 <= i < |s.workers| && s.workers[i].pc.Waiting?
  }

  predicate QueueFull(s: Pool) {
    s.maxTasks != NO_TASK_LIMIT && |s.tasks| >= s.maxTasks
  }

  ghost predicate Enabled(s: Pool, e: Event) {
    match e
    case Submit(_, tid, pick) =>
      && !s.quit && tid !in s.threads
      && (HasWaiter(s) ==> pick < |s.workers| && s.workers[pick].pc.Waiting?)
    case SetMaxThreads(_) => true
    case SetMaxTasks(_) => true
    case WakeUp(i) => i < |s.workers| && s.workers[i].pc.Waiting?
    case Enter(i, timedOut) =>
      i < |s.workers| && (s.workers[i].pc.Awake? || (s.workers[i].pc.Starting? && !timedOut))
    case Return(i) => i < |s.workers| && s.workers[i].pc.Running?
    case BeginQuit => !s.quit
    case NotifyAll => s.quit && !s.notifiedAll
  }

  function At(s: Pool, i: nat, pc: Pc): Pool
    requires i < |s.workers|
  {
    s.(workers := s.workers[i := s.workers[i].(pc := pc)])
  }

  ghost function SubmitStep(s: Pool, task: Task, tid: ThreadId, pick: nat): Pool
    requires Enabled(s, Submit(task, tid, pick))
  {
    if QueueFull(s) then s else
    var s1 := s.(tasks := s.tasks + [task]);
    if s.idle > 0 then
      if HasWaiter(s) then At(s1, pick, Awake) else s1
    else if s.current < s.maxThreads then
      s1.(threads := s.threads[tid := |s.workers|], workers := s.workers + [Worker(tid, Starting)],
          current := s.current + 1)
    else s1
  }

  /** One turn of the join loop: `front`, `pop`, `find`, `join`, `erase`. */
  function JoinOne(s: Pool): Pool
    requires s.finished != [] && s.finished[0] in s.threads && s.threads[s.finished[0]] < |s.workers|
  {
    var t := s.finished[0];
    At(s, s.threads[t], Joined).(finished := s.finished[1..], threads := s.threads - {t})
  }

  ghost function JoinFinished(s: Pool): (r: Pool)
    requires Inv(s)
    ensures Inv(r) && r.finished == []
    ensures |r.workers| == |s.workers|
    ensures forall i :: 0 <= i < |s.workers| && !s.workers[i].pc.Retired? ==> r.workers[i] == s.workers[i]
    ensures r == s.(finished := [], threads := r.threads, workers := r.workers)
    ensures Total(StepsLeft, r.workers) == Total(StepsLeft, s.workers)
    decreases |s.finished|
  {
    if s.finished == [] then s else
    JoinOneKeepsInv(s);
    JoinFinished(JoinOne(s))
  }

  predicate AtPredicate(s: Pool, i: nat) {
    i < |s.workers| && (s.workers[i].pc.Starting? || s.workers[i].pc.Awake?)
  }

  /** The idle count after the worker has left `wait_for`: it was counted only if it waited. */
  function IdleAfter(s: Pool, i: nat): int
    requires AtPredicate(s, i)
  {
    if s.workers[i].pc.Awake? then s.idle - 1 else s.idle
  }

  function TakeStep(s: Pool, i: nat): Pool
    requires AtPredicate(s, i) && s.tasks != []
  {
    At(s, i, Running(s.tasks[0])).(idle := IdleAfter(s, i), tasks := s.tasks[1..])
  }

  function QuitStep(s: Pool, i: nat): Pool
    requires AtPredicate(s, i)
  {
    At(s, i, Quit).(idle := IdleAfter(s, i), current := s.current - 1)
  }

  ghost function RetireStep(s: Pool, i: nat): Pool
    requires Inv(s) && AtPredicate(s, i)
  {
    At(JoinFinished(s), i, Retired).(
      idle := IdleAfter(s, i), current := s.current - 1, finished := [s.workers[i].tid])
  }

  /** The part of a critical section after the wait: take a task, quit or retire. */
  ghost function Leave(s: Pool, i: nat): Pool
    requires Inv(s) && AtPredicate(s, i)
  {
    if s.tasks != [] then TakeStep(s, i) else if s.quit then QuitStep(s, i) else RetireStep(s, i)
  }

  ghost function EnterStep(s: Pool, i: nat, timedOut: bool): Pool
    requires Inv(s) && Enabled(s, Enter(i, timedOut))
  {
    if s.quit || s.tasks != [] || timedOut then Leave(s, i)
    else if s.workers[i].pc.Starting? then At(s, i, Waiting).(idle := s.idle + 1)
    else At(s, i, Waiting)
  }

  function WakeAll(ws: seq<Worker>): seq<Worker> {
    seq(|ws|, i requires 0 <= i < |ws| => if ws[i].pc.Waiting? then ws[i].(pc := Awake) else ws[i])
  }

  ghost function Apply(s: Pool, e: Event): Pool
    requires Inv(s) && Enabled(s, e)
  {
    match e
    case Submit(task, tid, pick) => SubmitStep(s, task, tid, pick)
    case SetMaxThreads(n) => s.(maxThreads := n)
    case SetMaxTasks(n) => s.(maxTasks := n)
    case WakeUp(i) => At(s, i, Awake)
    case Enter(i, timedOut) => EnterStep(s, i, timedOut)
    case Return(i) => At(s, i, Starting)
    case BeginQuit => s.(quit := true)
    case NotifyAll => s.(notifiedAll := true, workers := WakeAll(s.workers))
  }

  // ---------------------------------------------------------------- every step keeps the invariant

  lemma MoveTotals(s: Pool, i: nat, pc: Pc)
    requires i < |s.workers|
    ensures var ws, was := At(s, i, pc).workers, s.workers[i].pc;
      && Total(InWait, ws) == Total(InWait, s.workers) - InWait(was) + InWait(pc)
      && Total(Live, ws) == Total(Live, s.workers) - Live(was) + Live(pc)
      && Total(IsRetired, ws) == Total(IsRetired, s.workers) - IsRetired(was) + IsRetired(pc)
      && Total(Unjoined, ws) == Total(Unjoined, s.workers) - Unjoined(was) + Unjoined(pc)
      && Total(StepsLeft, ws) == Total(StepsLeft, s.workers) - StepsLeft(was) + StepsLeft(pc)
  {
    var w := s.workers[i].(pc := pc);
    TotalUpdate(InWait, s.workers, i, w);
    TotalUpdate(Live, s.workers, i, w);
    TotalUpdate(IsRetired, s.workers, i, w);
    TotalUpdate(Unjoined, s.workers, i, w);
    TotalUpdate(StepsLeft, s.workers, i, w);
  }

  /** Moving one worker that has not returned changes neither the thread table nor the
      ids to be joined. */
  lemma MoveKeepsTable(s: Pool, i: nat, pc: Pc)
    requires Mapped(s.threads, s.workers) && Joinable(s.finished, s.threads, s.workers)
    requires i < |s.workers| && Live(s.workers[i].pc) == 1 && !pc.Joined?
    ensures Mapped(s.threads, At(s, i, pc).workers) && Joinable(s.finished, s.threads, At(s, i, pc).workers)
  {
    var ws := At(s, i, pc).workers;
    forall t | t in s.threads ensures LeadsToWorker(s.threads, ws, t) {
      assert LeadsToWorker(s.threads, s.workers, t);
    }
    forall j | 0 <= j < |ws| ensures Listed(s.threads, ws, j) {
      assert Listed(s.threads, s.workers, j);
    }
  }

  lemma JoinOneKeepsTable(s: Pool)
    requires Mapped(s.threads, s.workers) && Joinable(s.finished, s.threads, s.workers) && s.finished != []
    ensures var r := JoinOne(s);
      Mapped(r.threads, r.workers) && Joinable(r.finished, r.threads, r.workers) && |r.threads| == |s.threads| - 1
  {
    var t, r := s.finished[0], JoinOne(s);
    assert LeadsToWorker(s.threads, s.workers, t);
    forall u | u in r.threads ensures LeadsToWorker(r.threads, r.workers, u) {
      assert LeadsToWorker(s.threads, s.workers, u);
    }
    forall j | 0 <= j < |r.workers| ensures Listed(r.threads, r.workers, j) {
      assert Listed(s.threads, s.workers, j);
    }
    forall k | 0 <= k < |r.finished|
      ensures r.finished[k] in r.threads && r.threads[r.finished[k]] < |r.workers|
      ensures r.workers[r.threads[r.finished[k]]].pc.Retired?
    {
      assert r.finished[k] == s.finished[k + 1] && s.finished[0] != s.finished[k + 1];
      assert LeadsToWorker(s.threads, s.workers, r.finished[k]);
    }
    assert (s.threads - {t}).Keys == s.threads.Keys - {t};
    assert |r.threads.Keys| == |s.threads.Keys| - 1;
  }

  lemma JoinOneKeepsInv(s: Pool)
    requires Inv(s) && s.finished != []
    ensures Inv(JoinOne(s))
    ensures Total(StepsLeft, JoinOne(s).workers) == Total(StepsLeft, s.workers)
  {
    MoveTotals(s, s.threads[s.finished[0]], Joined);
    JoinOneKeepsTable(s);
  }

  lemma NewThreadKeepsTable(s: Pool, tid: ThreadId)
    requires Mapped(s.threads, s.workers) && Joinable(s.finished, s.threads, s.workers) && tid !in s.threads
    ensures var threads, workers := s.threads[tid := |s.workers|], s.workers + [Worker(tid, Starting)];
      Mapped(threads, workers) && Joinable(s.finished, threads, workers) && |threads| == |s.threads| + 1
  {
    var threads, workers := s.threads[tid := |s.workers|], s.workers + [Worker(tid, Starting)];
    forall t | t in threads ensures LeadsToWorker(threads, workers, t) {
      assert t in s.threads ==> LeadsToWorker(s.threads, s.workers, t);
    }
    forall j | 0 <= j < |workers| ensures Listed(threads, workers, j) {
      assert j < |s.workers| ==> Listed(s.threads, s.workers, j);
    }
    assert threads.Keys == s.threads.Keys + {tid};
    assert |threads| == |threads.Keys| == |s.threads.Keys| + 1;
  }

  lemma NewThreadTotals(s: Pool, tid: ThreadId)
    requires Counted(s)
    ensures var workers := s.workers + [Worker(tid, Starting)];
      && Total(InWait, workers) == s.idle && Total(Live, workers) == s.current + 1
      && Total(IsRetired, workers) == |s.finished| && Total(Unjoined, workers) == |s.threads| + 1
  {
    var w := Worker(tid, Starting);
    TotalAppend(InWait, s.workers, w);
    TotalAppend(Live, s.workers, w);
    TotalAppend(IsRetired, s.workers, w);
    TotalAppend(Unjoined, s.workers, w);
  }

  lemma SubmitKeepsInv(s: Pool, task: Task, tid: ThreadId, pick: nat)
    requires Inv(s) && Enabled(s, Submit(task, tid, pick))
    ensures Inv(SubmitStep(s, task, tid, pick))
  {
    if !QueueFull(s) {
      if s.idle > 0 {
        if HasWaiter(s) {
          MoveTotals(s, pick, Awake);
          MoveKeepsTable(s, pick, Awake);
        }
      } else if s.current < s.maxThreads {
        NewThreadTotals(s, tid);
        NewThreadKeepsTable(s, tid);
      }
    }
  }

  lemma TakeKeepsInv(s: Pool, i: nat)
    requires Inv(s) && AtPredicate(s, i) && s.tasks != []
    ensures Inv(TakeStep(s, i))
  {
    MoveTotals(s, i, Running(s.tasks[0]));
    MoveKeepsTable(s, i, Running(s.tasks[0]));
  }

  lemma QuitKeepsInv(s: Pool, i: nat)
    requires Inv(s) && AtPredicate(s, i)
    ensures Inv(QuitStep(s, i))
  {
    MoveTotals(s, i, Quit);
    MoveKeepsTable(s, i, Quit);
  }

  lemma RetireKeepsInv(s: Pool, i: nat)
    requires Inv(s) && AtPredicate(s, i)
    ensures Inv(RetireStep(s, i))
  {
    var r := JoinFinished(s);
    MoveTotals(r, i, Retired);
    MoveKeepsTable(r, i, Retired);
    assert Listed(r.threads, r.workers, i);
    assert Joinable([s.workers[i].tid], r.threads, At(r, i, Retired).workers);
  }

  lemma WakeAllTotals(ws: seq<Worker>, f: Pc -> nat)
    requires f(Waiting) == f(Awake)
    ensures Total(f, WakeAll(ws)) == Total(f, ws)
  {
    TotalCompare(f, WakeAll(ws), ws);
    TotalCompare(f, ws, WakeAll(ws));
  }

  lemma NotifyAllKeepsInv(s: Pool)
    requires Inv(s) && Enabled(s, NotifyAll)
    ensures Inv(Apply(s, NotifyAll))
  {
    WakeAllTotals(s.workers, InWait);
    WakeAllTotals(s.workers, Live);
    WakeAllTotals(s.workers, IsRetired);
    WakeAllTotals(s.workers, Unjoined);
    var ws := WakeAll(s.workers);
    forall t | t in s.threads ensures LeadsToWorker(s.threads, ws, t) {
      assert LeadsToWorker(s.threads, s.workers, t);
    }
    forall j | 0 <= j < |ws| ensures Listed(s.threads, ws, j) {
      assert Listed(s.threads, s.workers, j);
    }
  }

  lemma EnterKeepsInv(s: Pool, i: nat, timedOut: bool)
    requires Inv(s) && Enabled(s, Enter(i, timedOut))
    ensures Inv(EnterStep(s, i, timedOut))
  {
    if s.tasks != [] {
      TakeKeepsInv(s, i);
    } else if s.quit {
      QuitKeepsInv(s, i);
    } else if timedOut {
      RetireKeepsInv(s, i);
    } else {
      MoveTotals(s, i, Waiting);
      MoveKeepsTable(s, i, Waiting);
    }
  }

  /** Every step keeps the counters, the thread table, the queue of finished ids and the
      start order right. */
  lemma StepKeepsInv(s: Pool, e: Event)
    requires Inv(s) && Enabled(s, e)
    ensures Inv(Apply(s, e))
  {
    match e
    case Submit(task, tid, pick) => SubmitKeepsInv(s, task, tid, pick);
    case Enter(i, timedOut) => EnterKeepsInv(s, i, timedOut);
    case WakeUp(i) => MoveTotals(s, i, Awake); MoveKeepsTable(s, i, Awake);
    case Return(i) => MoveTotals(s, i, Starting); MoveKeepsTable(s, i, Starting);
    case NotifyAll => NotifyAllKeepsInv(s);
    case _ =>
  }

  // ---------------------------------------------------------------- no stranded task

  /** `submit` leaves its task unserved exactly when nobody is left to serve it and the
      pool may not create a thread: no live worker and `maxThreads_ == 0`. */
  lemma SubmitServesIff(s: Pool, task: Task, tid: ThreadId, pick: nat)
    requires Inv(s) && Served(s) && Enabled(s, Submit(task, tid, pick)) && !QueueFull(s)
    ensures Served(SubmitStep(s, task, tid, pick)) <==> s.current > 0 || s.maxThreads > 0
  {
    var r := SubmitStep(s, task, tid, pick);
    TotalWitness(InWait, s.workers);
    TotalWitness(Live, s.workers);
    if s.idle > 0 {
      var i :| 0 <= i < |s.workers| && InWait(s.workers[i].pc) > 0;
      assert Live(s.workers[i].pc) > 0;
      if HasWaiter(s) { assert IsBusy(r.workers[pick].pc); } else { assert IsBusy(r.workers[i].pc); }
    } else if s.current < s.maxThreads {
      assert IsBusy(r.workers[|s.workers|].pc);
    } else if s.current > 0 {
      var i :| 0 <= i < |s.workers| && Live(s.workers[i].pc) > 0;
      assert InWait(s.workers[i].pc) == 0;
      assert IsBusy(r.workers[i].pc);
    }
  }

  predicate MayCreateOnSubmit(s: Pool, e: Event) {
    e.Submit? ==> s.maxThreads > 0
  }

  lemma StepKeepsServed(s: Pool, e: Event)
    requires Inv(s) && Served(s) && Enabled(s, e) && MayCreateOnSubmit(s, e)
    ensures Served(Apply(s, e))
  {
    var r := Apply(s, e);
    match e
    case Submit(task, tid, pick) =>
      if !QueueFull(s) { SubmitServesIff(s, task, tid, pick); }
    case Enter(i, timedOut) =>
      if s.tasks != [] { assert IsBusy(r.workers[i].pc); }
    case WakeUp(i) => assert IsBusy(r.workers[i].pc);
    case Return(i) => assert IsBusy(r.workers[i].pc);
    case NotifyAll =>
      if s.tasks != [] {
        var i :| 0 <= i < |s.workers| && IsBusy(s.workers[i].pc);
        assert IsBusy(r.workers[i].pc);
      }
    case _ =>
  }

  // ---------------------------------------------------------------- whole runs

  /** A list of steps that the pool can take one after the other from `s0`. */
  ghost predicate Legal(s0: Pool, es: seq<Event>)
    requires Inv(s0)
    decreases |es|, 0
  {
    es == [] || (Legal(s0, es[..|es| - 1]) && Enabled(Exec(s0, es[..|es| - 1]), es[|es| - 1]))
  }

  /** The state after a run; every run stays inside the invariant. */
  ghost function Exec(s0: Pool, es: seq<Event>): (s: Pool)
    requires Inv(s0) && Legal(s0, es)
    ensures Inv(s)
    decreases |es|, 1
  {
    if es == [] then s0 else
    var p := Exec(s0, es[..|es| - 1]);
    StepKeepsInv(p, es[|es| - 1]);
    Apply(p, es[|es| - 1])
  }

  ghost predicate MayCreateThroughout(s0: Pool, es: seq<Event>)
    requires Inv(s0) && Legal(s0, es)
  {
    es == [] ||
    (MayCreateThroughout(s0, es[..|es| - 1]) && MayCreateOnSubmit(Exec(s0, es[..|es| - 1]), es[|es| - 1]))
  }

  /** No task is ever stranded, whatever the interleaving, if the pool may have at least
      one thread whenever something is submitted. */
  lemma {:induction false} NoStrandedTask(maxThreads: nat, maxTasks: nat, es: seq<Event>)
    requires Legal(Init(maxThreads, maxTasks), es)
    requires MayCreateThroughout(Init(maxThreads, maxTasks), es)
    ensures Served(Exec(Init(maxThreads, maxTasks), es))
  {
    var s0 := Init(maxThreads, maxTasks);
    if es != [] {
      var prefix := es[..|es| - 1];
      NoStrandedTask(maxThreads, maxTasks, prefix);
      StepKeepsServed(Exec(s0, prefix), es[|es| - 1]);
    }
  }

  /** The threads in the table are the live ones, the ones waiting to be joined and the
      ones that returned because of the destructor; and every assertion of the join loop
      holds: the id is in the table and its thread needs the mutex no more. */
  lemma PoolAccounting(s: Pool)
    requires Inv(s)
    ensures |s.threads| == s.current + |s.finished| + Total(HasQuit, s.workers)
    ensures 0 <= s.idle <= s.current
    ensures forall k :: 0 <= k < |s.finished| ==>
      s.finished[k] in s.threads && Live(s.workers[s.threads[s.finished[k]]].pc) == 0
    ensures forall j, k :: 0 <= j < k < |s.finished| ==> s.finished[j] != s.finished[k]
  {
    TotalsSplit(s.workers);
    IdleAreLive(s.workers);
  }

  lemma {:induction false} IdleAreLive(ws: seq<Worker>)
    ensures Total(InWait, ws) <= Total(Live, ws)
  {
    if ws != [] { IdleAreLive(ws[..|ws| - 1]); }
  }

  /** The task that a step puts into the queue: a submission not refused. */
  ghost function Submitted(s: Pool, e: Event): seq<Task> {
    if e.Submit? && !QueueFull(s) then [e.task] else []
  }

  /** The task that a worker begins to run in a step. */
  ghost function Begun(s: Pool, e: Event): seq<Task>
    requires Inv(s) && Enabled(s, e)
  {
    if e.Enter? && Apply(s, e).workers[e.i].pc.Running? then [Apply(s, e).workers[e.i].pc.task] else []
  }

  lemma StepKeepsOrder(s: Pool, e: Event)
    requires Inv(s) && Enabled(s, e)
    ensures s.tasks + Submitted(s, e) == Begun(s, e) + Apply(s, e).tasks
  {
    if e.Enter? { EnterKeepsOrder(s, e.i, e.timedOut); }
  }

  lemma EnterKeepsOrder(s: Pool, i: nat, timedOut: bool)
    requires Inv(s) && Enabled(s, Enter(i, timedOut))
    ensures var r := EnterStep(s, i, timedOut);
      s.tasks == (if r.workers[i].pc.Running? then [r.workers[i].pc.task] else []) + r.tasks
  {
  }

  ghost function Submissions(s0: Pool, es: seq<Event>): seq<Task>
    requires Inv(s0) && Legal(s0, es)
  {
    if es == [] then [] else
    var prefix, e := es[..|es| - 1], es[|es| - 1];
    Submissions(s0, prefix) + Submitted(Exec(s0, prefix), e)
  }

  ghost function Starts(s0: Pool, es: seq<Event>): seq<Task>
    requires Inv(s0) && Legal(s0, es)
  {
    if es == [] then [] else
    var prefix, e := es[..|es| - 1], es[|es| - 1];
    Starts(s0, prefix) + Begun(Exec(s0, prefix), e)
  }

  /** Every accepted task starts exactly once, in submission order: what was submitted is
      what was started followed by what is still queued. */
  lemma {:induction false} StartedInOrder(s0: Pool, es: seq<Event>)
    requires Inv(s0) && Legal(s0, es)
    ensures s0.tasks + Submissions(s0, es) == Starts(s0, es) + Exec(s0, es).tasks
  {
    if es != [] {
      var prefix, e := es[..|es| - 1], es[|es| - 1];
      var p := Exec(s0, prefix);
      StartedInOrder(s0, prefix);
      StepKeepsOrder(p, e);
      Regroup(s0.tasks, Submissions(s0, prefix), Submitted(p, e),
              Starts(s0, prefix), p.tasks, Begun(p, e), Apply(p, e).tasks);
    }
  }

  lemma Regroup(q0: seq<Task>, subs: seq<Task>, sub: seq<Task>,
                starts: seq<Task>, q1: seq<Task>, begun: seq<Task>, q2: seq<Task>)
    requires q0 + subs == starts + q1 && q1 + sub == begun + q2
    ensures q0 + (subs + sub) == (starts + begun) + q2
  {
    calc {
      q0 + (subs + sub);
      (q0 + subs) + sub;
      starts + (q1 + sub);
      (starts + begun) + q2;
    }
  }

  // ---------------------------------------------------------------- draining

  predicate ByWorker(e: Event) { e.WakeUp? || e.Enter? || e.Return? }

  function WorkerSteps(es: seq<Event>): nat {
    if es == [] then 0 else WorkerSteps(es[..|es| - 1]) + if ByWorker(es[|es| - 1]) then 1 else 0
  }

  function Measure(s: Pool): nat { 2 * |s.tasks| + Total(StepsLeft, s.workers) }

  /** Once the destructor has begun, the thread table never changes again, so its unlocked
      iteration is safe, and every step of a worker brings the pool closer to the end. */
  lemma QuitStepDrains(s: Pool, e: Event)
    requires Inv(s) && s.quit && Enabled(s, e)
    ensures var r := Apply(s, e);
      && r.quit && r.threads == s.threads && r.finished == s.finished
      && Measure(r) <= Measure(s) - if ByWorker(e) then 1 else 0
  {
    match e
    case Enter(i, timedOut) => QuitEnterDrains(s, i, timedOut);
    case WakeUp(i) => MoveTotals(s, i, Awake);
    case Return(i) => MoveTotals(s, i, Starting);
    case NotifyAll => TotalCompare(StepsLeft, WakeAll(s.workers), s.workers);
    case _ =>
  }

  lemma QuitEnterDrains(s: Pool, i: nat, timedOut: bool)
    requires Inv(s) && s.quit && Enabled(s, Enter(i, timedOut))
    ensures var r := EnterStep(s, i, timedOut);
      r.quit && r.threads == s.threads && r.finished == s.finished && Measure(r) < Measure(s)
  {
    MoveTotals(s, i, if s.tasks != [] then Running(s.tasks[0]) else Quit);
  }

  /** From any state of a pool being destroyed, no run has more worker steps than the
      measure of that state. */
  lemma {:induction false} DrainIsBounded(s0: Pool, es: seq<Event>)
    requires Inv(s0) && s0.quit && Legal(s0, es)
    ensures var r := Exec(s0, es);
      && r.quit && r.threads == s0.threads && r.finished == s0.finished
      && WorkerSteps(es) + Measure(r) <= Measure(s0)
  {
    if es != [] {
      DrainIsBounded(s0, es[..|es| - 1]);
      QuitStepDrains(Exec(s0, es[..|es| - 1]), es[|es| - 1]);
    }
  }

  ghost predicate Stuck(s: Pool) {
    forall e :: Enabled(s, e) ==> !ByWorker(e)
  }

  /** When no worker can take a step any more, the queue is empty, nobody is live, and
      every thread in the table can be joined at once. */
  lemma DrainIsComplete(s: Pool)
    requires Inv(s) && Served(s) && s.quit && Stuck(s)
    ensures s.tasks == [] && s.current == 0 && s.idle == 0
    ensures forall t :: t in s.threads ==> s.threads[t] < |s.workers| && Live(s.workers[s.threads[t]].pc) == 0
  {
    forall i | 0 <= i < |s.workers| ensures Live(s.workers[i].pc) == 0 {
      assert !Enabled(s, WakeUp(i)) && !Enabled(s, Enter(i, false)) && !Enabled(s, Return(i));
    }
    TotalWitness(Live, s.workers);
    IdleAreLive(s.workers);
    forall t | t in s.threads ensures s.threads[t] < |s.workers| && Live(s.workers[s.threads[t]].pc) == 0 {
      assert LeadsToWorker(s.threads, s.workers, t);
    }
  }

  /** Put together: when a pool that could always create a thread is being destroyed and its
      workers have come to the end, which they do, every task ever accepted has been started
      once, in submission order, and every thread can be joined. */
  lemma DestructorDrains(maxThreads: nat, maxTasks: nat, es: seq<Event>)
    requires Inv(Init(maxThreads, maxTasks)) && Legal(Init(maxThreads, maxTasks), es)
    requires MayCreateThroughout(Init(maxThreads, maxTasks), es)
    requires var s := Exec(Init(maxThreads, maxTasks), es); s.quit && Stuck(s)
    ensures var s0 := Init(maxThreads, maxTasks); Starts(s0, es) == Submissions(s0, es)
    ensures var s := Exec(Init(maxThreads, maxTasks), es);
      && s.current == 0
      && forall t :: t in s.threads ==> s.threads[t] < |s.workers| && Live(s.workers[s.threads[t]].pc) == 0
  {
    var s0 := Init(maxThreads, maxTasks);
    NoStrandedTask(maxThreads, maxTasks, es);
    DrainIsComplete(Exec(s0, es));
    StartedInOrder(s0, es);
    assert s0.tasks + Submissions(s0, es) == Submissions(s0, es);
    assert Starts(s0, es) + [] == Starts(s0, es);
  }

  // ---------------------------------------------------------------- what each step decides

  /** The pool grows in no step but a `submit` that is accepted, finds nobody idle and may have
      another thread; then by one worker, which starts under its own id. */
  lemma GrowsIff(s: Pool, e: Event)
    requires Inv(s) && Enabled(s, e)
    ensures var r := Apply(s, e);
      && (r.current > s.current <==>
            && e.Submit? && (s.maxTasks == 0xFFFF_FFFF_FFFF_FFFF || |s.tasks| < s.maxTasks)
            && s.idle == 0 && s.current < s.maxThreads)
      && if r.current > s.current
         then r.current == s.current + 1 && r.workers == s.workers + [Worker(e.tid, Starting)] && e.tid in r.threads
         else |r.workers| == |s.workers|
  {
    if e.Enter? { EnterMoves(s, e.i, e.timedOut, e.i); }
  }

  /** It shrinks in no step but that of a worker that finds the queue empty and is to quit or
      has timed out. */
  lemma ShrinksIff(s: Pool, e: Event)
    requires Inv(s) && Enabled(s, e)
    ensures var r := Apply(s, e);
      && (r.current < s.current <==> e.Enter? && s.tasks == [] && (s.quit || e.timedOut))
      && r.current >= s.current - 1
  {
  }

  /** `submit` puts its task into the queue exactly when the queue has room, and otherwise
      changes nothing at all. */
  lemma AcceptsIff(s: Pool, task: Task, tid: ThreadId, pick: nat)
    requires Inv(s) && Enabled(s, Submit(task, tid, pick))
    ensures var r := Apply(s, Submit(task, tid, pick));
      if s.maxTasks == 0xFFFF_FFFF_FFFF_FFFF || |s.tasks| < s.maxTasks then r.tasks == s.tasks + [task] else r == s
  {
  }

  /** A worker that looks at the queue takes the first task, or else quits, retires or waits; if
      it retires, it joins those that have retired before. Nobody else moves. */
  lemma EnterMoves(s: Pool, i: nat, timedOut: bool, j: nat)
    requires Inv(s) && Enabled(s, Enter(i, timedOut)) && j < |s.workers|
    ensures var r, pc := Apply(s, Enter(i, timedOut)), s.workers[j].pc;
      && |r.workers| == |s.workers| && r.workers[j].tid == s.workers[j].tid
      && r.workers[j].pc ==
           if i == j then
             if s.tasks != [] then Running(s.tasks[0])
             else if s.quit then Quit
             else if timedOut then Retired
             else Waiting
           else if pc.Retired? && s.tasks == [] && !s.quit && timedOut then Joined
           else pc
  {
    if s.tasks == [] && !s.quit && timedOut { RetiredAreJoined(s, j); }
  }

  /** A waiter is woken by an accepted `submit` that picks it, by itself, or with all others, and
      a task ends when it returns; apart from that, and from `EnterMoves`, nothing moves a worker. */
  lemma OthersMove(s: Pool, e: Event, j: nat)
    requires Inv(s) && Enabled(s, e) && !e.Enter? && j < |s.workers|
    ensures var r, pc := Apply(s, e), s.workers[j].pc;
      && j < |r.workers| && r.workers[j].tid == s.workers[j].tid
      && r.workers[j].pc ==
           match e
           case Submit(_, _, pick) => if r != s && pc.Waiting? && pick == j then Awake else pc
           case WakeUp(i) => if i == j then Awake else pc
           case Return(i) => if i == j then Starting else pc
           case NotifyAll => if pc.Waiting? then Awake else pc
           case _ => pc
  {
    if e.Submit? && s.workers[j].pc.Waiting? { TotalWitness(InWait, s.workers); }
  }

  lemma {:induction false} JoiningOnlyJoins(s: Pool, j: nat)
    requires Inv(s) && j < |s.workers|
    ensures JoinFinished(s).workers[j].tid == s.workers[j].tid
    ensures s.workers[j].pc.Retired? ==>
      JoinFinished(s).workers[j].pc.Retired? || JoinFinished(s).workers[j].pc.Joined?
    decreases |s.finished|
  {
    if s.finished != [] {
      FrontIsJoinable(s);
      var k := s.threads[s.finished[0]];
      if j != k || JoinOne(s).workers[j].pc.Joined? { JoiningOnlyJoins(JoinOne(s), j); }
    }
  }

  lemma RetiredAreJoined(s: Pool, j: nat)
    requires Inv(s) && j < |s.workers|
    ensures var r := JoinFinished(s);
      r.workers[j] == if s.workers[j].pc.Retired? then s.workers[j].(pc := Joined) else s.workers[j]
  {
    JoiningOnlyJoins(s, j);
    TotalWitness(IsRetired, JoinFinished(s).workers);
  }

  /** Nobody has allowed more than `limit` threads. */
  predicate AllowsAtMost(limit: nat, es: seq<Event>) {
    forall e :: e in es && e.SetMaxThreads? ==> e.n <= limit
  }

  /** In any run the pool never has more live threads than the largest limit that was ever in
      force, nor more workers that wait. */
  lemma {:induction false} NeverTooManyThreads(s0: Pool, es: seq<Event>, limit: nat)
    requires Inv(s0) && Legal(s0, es) && s0.current <= limit && s0.maxThreads <= limit && AllowsAtMost(limit, es)
    ensures 0 <= Exec(s0, es).idle <= Exec(s0, es).current <= limit && Exec(s0, es).maxThreads <= limit
  {
    if es != [] {
      var prefix, e := es[..|es| - 1], es[|es| - 1];
      assert AllowsAtMost(limit, prefix) by { assert forall f :: f in prefix ==> f in es; }
      assert e in es;
      NeverTooManyThreads(s0, prefix, limit);
      GrowsIff(Exec(s0, prefix), e);
      LimitIsSet(Exec(s0, prefix), e);
    }
    PoolAccounting(Exec(s0, es));
  }

  /** The limits and the flag change only when they are set. */
  lemma LimitIsSet(s: Pool, e: Event)
    requires Inv(s) && Enabled(s, e)
    ensures var r := Apply(s, e);
      && r.maxThreads == (if e.SetMaxThreads? then e.n else s.maxThreads)
      && r.maxTasks == (if e.SetMaxTasks? then e.n else s.maxTasks)
      && (r.quit <==> s.quit || e.BeginQuit?)
  {
  }

  /** Nobody has allowed more than `limit` tasks to be queued. */
  predicate QueuesAtMost(limit: nat, es: seq<Event>) {
    forall e :: e in es && e.SetMaxTasks? ==> e.n <= limit
  }

  /** In any run with a bounded queue, never more tasks are queued than the largest bound that
      was ever in force. */
  lemma {:induction false} NeverTooManyTasks(s0: Pool, es: seq<Event>, limit: nat)
    requires Inv(s0) && Legal(s0, es) && limit < 0xFFFF_FFFF_FFFF_FFFF
    requires |s0.tasks| <= limit && s0.maxTasks <= limit && QueuesAtMost(limit, es)
    ensures |Exec(s0, es).tasks| <= limit && Exec(s0, es).maxTasks <= limit
  {
    if es != [] {
      var prefix, e := es[..|es| - 1], es[|es| - 1];
      assert QueuesAtMost(limit, prefix) by { assert forall f :: f in prefix ==> f in es; }
      assert e in es;
      NeverTooManyTasks(s0, prefix, limit);
      LimitIsSet(Exec(s0, prefix), e);
      QueueGrows(Exec(s0, prefix), e);
    }
  }

  lemma QueueGrows(s: Pool, e: Event)
    requires Inv(s) && Enabled(s, e)
    ensures |Apply(s, e).tasks| > |s.tasks| ==>
      |Apply(s, e).tasks| == |s.tasks| + 1 && (s.maxTasks == 0xFFFF_FFFF_FFFF_FFFF || |s.tasks| < s.maxTasks)
  {
    StepKeepsOrder(s, e);
  }

  // ---------------------------------------------------------------- the destructor's loop

  /** The destructor goes through the map in some order and blocks in each `join`, while the
      workers go on. */
  datatype Destructor = Destructor(pool: Pool, order: seq<ThreadId>, joined: nat)

  datatype DestructorEvent = Other(e: Event) | JoinNext

  ghost predicate ListsOnce(order: seq<ThreadId>, threads: map<ThreadId, nat>) {
    && (forall t :: t in order <==> t in threads)
    && (forall i, j :: 0 <= i < j < |order| ==> order[i] != order[j])
  }

  ghost predicate Destroying(d: Destructor) {
    && Inv(d.pool) && d.pool.quit && Served(d.pool)
    && d.joined <= |d.order| && ListsOnce(d.order, d.pool.threads)
  }

  predicate HasReturned(s: Pool, t: ThreadId) {
    t in s.threads && s.threads[t] < |s.workers| && Live(s.workers[s.threads[t]].pc) == 0
  }

  ghost predicate CanHappen(d: Destructor, e: DestructorEvent) {
    match e
    case Other(f) => Enabled(d.pool, f)
    case JoinNext => d.joined < |d.order| && HasReturned(d.pool, d.order[d.joined])
  }

  ghost function Step(d: Destructor, e: DestructorEvent): Destructor
    requires Inv(d.pool) && CanHappen(d, e)
  {
    match e
    case Other(f) => d.(pool := Apply(d.pool, f))
    case JoinNext => d.(joined := d.joined + 1)
  }

  predicate Advances(e: DestructorEvent) { e.JoinNext? || ByWorker(e.e) }

  function Advance(es: seq<DestructorEvent>): nat {
    if es == [] then 0 else Advance(es[..|es| - 1]) + if Advances(es[|es| - 1]) then 1 else 0
  }

  function Ahead(d: Destructor): int { Measure(d.pool) + |d.order| - d.joined }

  lemma StepKeepsDestroying(d: Destructor, e: DestructorEvent)
    requires Destroying(d) && CanHappen(d, e)
    ensures var r := Step(d, e);
      && Destroying(r) && r.order == d.order && r.pool.threads == d.pool.threads
      && Ahead(r) <= Ahead(d) - if Advances(e) then 1 else 0
  {
    if e.Other? {
      StepKeepsInv(d.pool, e.e);
      StepKeepsServed(d.pool, e.e);
      QuitStepDrains(d.pool, e.e);
    }
  }

  ghost predicate Happens(d0: Destructor, es: seq<DestructorEvent>)
    requires Destroying(d0)
    decreases |es|, 0
  {
    es == [] || (Happens(d0, es[..|es| - 1]) && CanHappen(After(d0, es[..|es| - 1]), es[|es| - 1]))
  }

  ghost function After(d0: Destructor, es: seq<DestructorEvent>): (d: Destructor)
    requires Destroying(d0) && Happens(d0, es)
    ensures Destroying(d)
    decreases |es|, 1
  {
    if es == [] then d0 else
    var p := After(d0, es[..|es| - 1]);
    StepKeepsDestroying(p, es[|es| - 1]);
    Step(p, es[|es| - 1])
  }

  lemma {:induction false} JoiningIsBounded(d0: Destructor, es: seq<DestructorEvent>)
    requires Destroying(d0) && Happens(d0, es)
    ensures var r := After(d0, es);
      r.order == d0.order && r.pool.threads == d0.pool.threads && Advance(es) + Ahead(r) <= Ahead(d0)
  {
    if es != [] {
      JoiningIsBounded(d0, es[..|es| - 1]);
      StepKeepsDestroying(After(d0, es[..|es| - 1]), es[|es| - 1]);
    }
  }

  /** Whatever the order of the map and the interleaving of joins with workers: the map the
      destructor goes through never changes, the joins and worker steps of a run are bounded,
      and when none of them can happen any more, every thread of the map has been joined, each
      once, and no task is left. */
  lemma DestructorJoinsAll(d0: Destructor, es: seq<DestructorEvent>)
    requires Destroying(d0) && Happens(d0, es)
    ensures var r := After(d0, es);
      && r.order == d0.order && r.pool.threads == d0.pool.threads
      && Advance(es) + Ahead(r) <= Ahead(d0)
      && ((forall e :: CanHappen(r, e) ==> !Advances(e)) ==>
            && r.order[..r.joined] == r.order && ListsOnce(r.order, r.pool.threads)
            && r.pool.tasks == [] && r.pool.current == 0)
  {
    JoiningIsBounded(d0, es);
    var r := After(d0, es);
    if forall e :: CanHappen(r, e) ==> !Advances(e) {
      forall f | Enabled(r.pool, f) ensures !ByWorker(f) {
        assert CanHappen(r, Other(f));
      }
      DrainIsComplete(r.pool);
      if r.joined < |r.order| {
        assert r.order[r.joined] in r.order;
        assert CanHappen(r, JoinNext);
        assert false;
      }
    }
  }

  /** The condition of `NoStrandedTask` cannot be dropped: a pool without threads accepts a
      task, and nobody is there to run it. */
  lemma ZeroThreadsStrandATask(task: Task)
    ensures var s0, es := Init(0, NO_TASK_LIMIT), [Submit(task, 0, 0)];
      Legal(s0, es) && !Served(Exec(s0, es))
  {
    var s0, es := Init(0, NO_TASK_LIMIT), [Submit(task, 0, 0)];
    assert es[..0] == [] && Legal(s0, es[..0]);
    assert Legal(s0, es) && Exec(s0, es[..0]) == s0;
    assert Exec(s0, es) == Apply(s0, es[0]);
  }

  /** And as long as the limit stays at 0, whatever else happens, no task is ever started. */
  lemma {:induction false} StrandedForever(s0: Pool, es: seq<Event>)
    requires Inv(s0) && s0.current == 0 && s0.maxThreads == 0 && Legal(s0, es) && AllowsAtMost(0, es)
    ensures Starts(s0, es) == [] && Exec(s0, es).tasks == s0.tasks + Submissions(s0, es)
    ensures Exec(s0, es).current == 0 && Exec(s0, es).maxThreads == 0
  {
    if es != [] {
      var prefix, e := es[..|es| - 1], es[|es| - 1];
      assert AllowsAtMost(0, prefix) by { assert forall f :: f in prefix ==> f in es; }
      assert e in es;
      StrandedForever(s0, prefix);
      NobodyStarts(Exec(s0, prefix), e);
    }
    StartedInOrder(s0, es);
  }

  lemma NobodyStarts(s: Pool, e: Event)
    requires Inv(s) && Enabled(s, e) && s.current == 0 && s.maxThreads == 0 && (e.SetMaxThreads? ==> e.n == 0)
    ensures Begun(s, e) == [] && Apply(s, e).current == 0 && Apply(s, e).maxThreads == 0
  {
    forall i | 0 <= i < |s.workers| ensures Live(s.workers[i].pc) == 0 {
      if Live(s.workers[i].pc) > 0 { TotalWitness(Live, s.workers); }
    }
  }

  /** A worker that finds the predicate true on arrival behaves like one that has waited. */
  lemma AwakeOnArrival(s: Pool, i: nat)
    requires Inv(s) && i < |s.workers| && s.workers[i].pc.Starting? && (s.quit || s.tasks != [])
    ensures var r := At(s, i, Awake).(idle := s.idle + 1); Inv(r) && Leave(r, i) == Leave(s, i)
  {
    MoveTotals(s, i, Awake);
    MoveKeepsTable(s, i, Awake);
    assert forall pc :: At(At(s, i, Awake), i, pc).workers == At(s, i, pc).workers;
  }

  lemma FrontIsJoinable(s: Pool)
    requires Inv(s) && s.finished != []
    ensures s.finished[0] in s.threads && s.threads[s.finished[0]] < |s.workers|
    ensures s.workers[s.threads[s.finished[0]]].pc.Retired?
    ensures Inv(JoinOne(s)) && JoinFinished(s) == JoinFinished(JoinOne(s))
  {
    JoinOneKeepsInv(s);
  }

  lemma TableAfterDrain(s: Pool)
    requires Inv(s) && s.current == 0
    ensures forall k :: 0 <= k < |s.workers| ==>
      s.workers[k].pc.Joined? || (s.workers[k].tid in s.threads && s.threads[s.workers[k].tid] == k)
    ensures forall t {:trigger LeadsToWorker(s.threads, s.workers, t)} :: t in s.threads ==>
      LeadsToWorker(s.threads, s.workers, t) && Live(s.workers[s.threads[t]].pc) == 0
  {
    TotalWitness(Live, s.workers);
    forall k | 0 <= k < |s.workers|
      ensures s.workers[k].pc.Joined? || (s.workers[k].tid in s.threads && s.threads[s.workers[k].tid] == k)
    {
      assert Listed(s.threads, s.workers, k);
    }
    forall t | t in s.threads
      ensures LeadsToWorker(s.threads, s.workers, t) && Live(s.workers[s.threads[t]].pc) == 0
    {
      assert LeadsToWorker(s.threads, s.workers, t);
    }
  }

  lemma RetireParts(s: Pool, i: nat, self: ThreadId)
    requires Inv(s) && AtPredicate(s, i) && s.workers[i] == Worker(self, Awake)
    ensures var j := JoinFinished(s);
      && i < |j.workers|
      && RetireStep(s, i) == s.(current := s.current - 1, idle := s.idle - 1, finished := [self],
                                threads := j.threads, workers := j.workers[i := Worker(self, Retired)])
  {
  }

  // ---------------------------------------------------------------- the pool itself

  /** What a critical section of a worker ends in. */
  datatype Outcome = Wait | Perform(task: Task) | Exit

  /** The pool's fields. `workers` and `notifiedAll` are what the operating system knows. */
  class ThreadPool {
    var quit: bool
    var currentThreads: int
    var idleThreads: int
    var maxThreads: nat
    var maxTasks: nat
    var tasks: seq<Task>
    var finishedIds: seq<ThreadId>
    var threads: map<ThreadId, nat>
    ghost var workers: seq<Worker>
    ghost var notifiedAll: bool

    ghost function St(): Pool reads this {
      Pool(quit, currentThreads, idleThreads, maxThreads, maxTasks, tasks, finishedIds, threads, workers, notifiedAll)
    }

    constructor (maxThreads: nat, maxTasks: nat := NO_TASK_LIMIT)
      ensures St() == Init(maxThreads, maxTasks)
    {
      quit, currentThreads, idleThreads := false, 0, 0;
      this.maxThreads, this.maxTasks := maxThreads, maxTasks;
      tasks, finishedIds, threads, workers, notifiedAll := [], [], map[], [], false;
    }

    method Submit(task: Task, tid: ThreadId, ghost pick: nat, slot: nat) returns (accepted: bool)
      requires Inv(St()) && Enabled(St(), Event.Submit(task, tid, pick)) && slot == |workers|
      modifies this
      ensures accepted <==> !old(QueueFull(St()))
      ensures St() == Apply(old(St()), Event.Submit(task, tid, pick))
    {
      if maxTasks != NO_TASK_LIMIT && |tasks| >= maxTasks {
        return false;
      }
      tasks := tasks + [task];
      if idleThreads > 0 {
        if HasWaiter(St()) { workers := workers[pick := workers[pick].(pc := Awake)]; }
      } else if currentThreads < maxThreads {
        assert tid !in threads;
        workers := workers + [Worker(tid, Starting)];
        threads := threads[tid := slot];
        currentThreads := currentThreads + 1;
      }
      accepted := true;
    }

    /** A worker that was just created, or that has finished a task, enters `wait_for`. */
    method EnterWait(self: ThreadId, ghost i: nat) returns (outcome: Outcome)
      requires Inv(St()) && i < |workers| && workers[i] == Worker(self, Starting)
      modifies this
      ensures St() == Apply(old(St()), Enter(i, false))
      ensures outcome.Wait? <==> workers[i].pc.Waiting?
      ensures outcome.Perform? ==> workers[i].pc == Running(outcome.task)
    {
      ghost var s := St();
      idleThreads := idleThreads + 1;
      if !(quit || tasks != []) {
        workers := workers[i := Worker(self, Waiting)];
        return Wait;
      }
      workers := workers[i := Worker(self, Awake)];
      AwakeOnArrival(s, i);
      outcome := LeaveWait(self, i, false);
    }

    /** A worker comes back from the wait set and looks at the predicate again. */
    method Recheck(self: ThreadId, ghost i: nat, timedOut: bool) returns (outcome: Outcome)
      requires Inv(St()) && i < |workers| && workers[i] == Worker(self, Awake)
      modifies this
      ensures St() == Apply(old(St()), Enter(i, timedOut))
      ensures outcome.Wait? <==> workers[i].pc.Waiting?
      ensures outcome.Perform? ==> workers[i].pc == Running(outcome.task)
    {
      var ready := quit || tasks != [];
      if !ready && !timedOut {
        workers := workers[i := Worker(self, Waiting)];
        return Wait;
      }
      outcome := LeaveWait(self, i, !ready);
    }

    method LeaveWait(self: ThreadId, ghost i: nat, hasTimedOut: bool) returns (outcome: Outcome)
      requires Inv(St()) && i < |workers| && workers[i] == Worker(self, Awake)
      requires quit || tasks != [] || hasTimedOut
      modifies this
      ensures St() == Leave(old(St()), i)
      ensures if outcome.Perform? then workers[i].pc == Running(outcome.task)
              else outcome.Exit? && Live(workers[i].pc) == 0
    {
      ghost var s := St();
      idleThreads := idleThreads - 1;
      if tasks == [] {
        if quit {
          currentThreads := currentThreads - 1;
          workers := workers[i := Worker(self, Quit)];
          return Exit;
        }
        if hasTimedOut {
          Retire(self, i, s);
          return Exit;
        }
      }
      var task := tasks[0];
      tasks := tasks[1..];
      workers := workers[i := Worker(self, Running(task))];
      outcome := Perform(task);
    }

    method Retire(self: ThreadId, ghost i: nat, ghost s: Pool)
      requires Inv(s) && AtPredicate(s, i) && s.workers[i] == Worker(self, Awake)
      requires St() == s.(idle := s.idle - 1)
      modifies this
      ensures St() == RetireStep(s, i)
    {
      RetireParts(s, i, self);
      currentThreads := currentThreads - 1;
      assert St() == s.(current := s.current - 1, idle := s.idle - 1);
      JoinFinishedThreads(s);
      assert St() == s.(current := s.current - 1, idle := s.idle - 1, finished := [],
                        threads := JoinFinished(s).threads, workers := JoinFinished(s).workers);
      assert finishedIds + [self] == [self];
      ListAsFinished(self, i);
    }

    /** A thread cannot join itself: its id is left for the next one. */
    method ListAsFinished(self: ThreadId, ghost i: nat)
      requires i < |workers|
      modifies this`finishedIds, this`workers
      ensures finishedIds == old(finishedIds) + [self] && workers == old(workers)[i := Worker(self, Retired)]
    {
      finishedIds := finishedIds + [self];
      workers := workers[i := Worker(self, Retired)];
    }

    /** Joins every thread that has retired since the last time. `s` is the state in which
        the caller was still counted. */
    method JoinFinishedThreads(ghost s: Pool)
      requires Inv(s) && finishedIds == s.finished && threads == s.threads && workers == s.workers
      modifies this`finishedIds, this`threads, this`workers
      ensures finishedIds == [] && threads == JoinFinished(s).threads && workers == JoinFinished(s).workers
    {
      ghost var cur := s;
      while finishedIds != []
        invariant Inv(cur) && JoinFinished(cur) == JoinFinished(s)
        invariant finishedIds == cur.finished && threads == cur.threads && workers == cur.workers
        decreases |finishedIds|
      {
        var id := finishedIds[0];
        finishedIds := finishedIds[1..];
        FrontIsJoinable(cur);
        workers := workers[threads[id] := workers[threads[id]].(pc := Joined)];
        threads := threads - {id};
        cur := JoinOne(cur);
      }
    }

    /** The destructor's critical section. */
    method BeginDestruction()
      requires Inv(St()) && !quit
      modifies this`quit
      ensures St() == Apply(old(St()), BeginQuit)
    {
      quit := true;
    }

    method NotifyEveryone()
      requires Inv(St()) && quit && !notifiedAll
      modifies this`workers, this`notifiedAll
      ensures St() == Apply(old(St()), NotifyAll)
    {
      workers := WakeAll(workers);
      notifiedAll := true;
    }

    /** The destructor's last loop, once the workers have returned: every thread of the
        table is joined, none of them twice. */
    method JoinAll()
      requires Inv(St()) && quit && currentThreads == 0
      modifies this`workers
      ensures |workers| == old(|workers|) && forall k :: 0 <= k < |workers| ==> workers[k].pc.Joined?
    {
      TableAfterDrain(St());
      ghost var was := workers;
      var left := threads.Keys;
      while left != {}
        invariant left <= threads.Keys && |workers| == |was|
        invariant forall k :: 0 <= k < |workers| ==>
          if was[k].tid in left && threads[was[k].tid] == k then workers[k] == was[k] else workers[k].pc.Joined?
        decreases |left|
      {
        var t :| t in left;
        assert LeadsToWorker(threads, was, t);
        assert Live(workers[threads[t]].pc) == 0 && !workers[threads[t]].pc.Joined?;
        workers := workers[threads[t] := Worker(t, Joined)];
        left := left - {t};
      }
    }
  }
}
