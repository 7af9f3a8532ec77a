/**
 The asynchronous logger: callers append to a current buffer, full buffers queue up, and a
 writer thread moves them in batches to the file. Each critical section, and each of the
 writer's reads outside the lock, is one step.
 */
module AsyncLoggers {

  const MAX_BATCH := 16

  /** A line of the log, with its place in the order in which `log` got the lock. */
  datatype Entry = Entry(number: nat, text: string)

  type Buffer = seq<Entry>

  /** Where the writer is: about to read `running_`, the queue or the current buffer outside
      the lock, about to take the lock, waiting on the condition variable, writing its batch,
      or gone. */
  datatype Writer = ReadRunning | ReadQueue | ReadCurrent | Locking | Waiting | Writing | Exited

  /** `late`: `log` was called after `stop` had begun. */
  datatype Logger = Logger(
    running: bool, current: Buffer, capacity: nat, queue: seq<Buffer>, local: seq<Buffer>,
    file: seq<Entry>, open: bool, writer: Writer, logged: seq<Entry>, late: bool)

  function Init(bufferSize: nat): Logger {
    Logger(true, [], bufferSize, [], [], [], true, ReadRunning, [], false)
  }

  function Flatten(buffers: seq<Buffer>): seq<Entry> {
    if buffers == [] then [] else buffers[0] + Flatten(buffers[1..])
  }

  function Size(b: Buffer): nat {
    if b == [] then 0 else Size(b[..|b| - 1]) + |b[|b| - 1].text|
  }

  /** `Log` says what the capacity of the current buffer is afterwards, `Collect` that of the
      buffer it reserves. */
  datatype Event =
    | Log(message: string, capacity: nat)
    | Read
    | Collect(capacity: nat)
    | Wake
    | Write
    | Stop
    | Flush

  function Line(s: Logger, message: string): Entry { Entry(|s.logged|, message + "\n") }

  predicate Full(s: Logger, message: string) { s.capacity - Size(s.current) < |message + "\n"| }

  predicate Enabled(s: Logger, e: Event) {
    match e
    case Log(message, capacity) =>
      if Full(s, message) then capacity >= |message + "\n"| else capacity == s.capacity
    case Read => s.writer.ReadRunning? || s.writer.ReadQueue? || s.writer.ReadCurrent?
    case Collect(_) => s.writer.Locking?
    case Wake => s.writer.Waiting?
    case Write => s.writer.Writing?
    case Stop => s.running
    case Flush => !s.running && s.writer.Exited? && s.open
  }

  function LogStep(s: Logger, message: string, capacity: nat): Logger {
    var line := Line(s, message);
    var r := if Full(s, message) then s.(queue := s.queue + [s.current], current := [line])
             else s.(current := s.current + [line]);
    r.(capacity := capacity, logged := s.logged + [line], late := s.late || !s.running)
  }

  function ReadStep(s: Logger): Writer {
    match s.writer
    case ReadRunning => if s.running then Locking else ReadQueue
    case ReadQueue => if s.queue != [] then Locking else ReadCurrent
    case ReadCurrent => if s.current != [] then Locking else Exited
    case w => w
  }

  function BatchSize(queue: seq<Buffer>): (n: nat)
    ensures n <= |queue|
  {
    if |queue| < MAX_BATCH then |queue| else MAX_BATCH
  }

  function CollectStep(s: Logger, capacity: nat): Logger {
    if s.queue == [] && s.current == [] then s.(writer := Waiting) else
    var r := if s.current == [] then s else s.(queue := s.queue + [s.current], current := [], capacity := capacity);
    var n := BatchSize(r.queue);
    r.(local := r.queue[..n], queue := r.queue[n..], writer := Writing)
  }

  function WriteStep(s: Logger): Logger {
    if s.local == [] then s.(writer := ReadRunning)
    else s.(file := s.file + s.local[0], local := s.local[1..])
  }

  /** The end of `stop`: the current buffer goes to the file first, then the queue. The
      current buffer is not cleared. */
  function FlushStep(s: Logger): Logger {
    s.(file := s.file + s.current + Flatten(s.queue), queue := [], open := false)
  }

  function Apply(s: Logger, e: Event): Logger
    requires Enabled(s, e)
  {
    match e
    case Log(message, capacity) => LogStep(s, message, capacity)
    case Read => s.(writer := ReadStep(s))
    case Collect(capacity) => CollectStep(s, capacity)
    case Wake => s.(writer := ReadRunning)
    case Write => WriteStep(s)
    case Stop => s.(running := false)
    case Flush => FlushStep(s)
  }

  // ---------------------------------------------------------------- order and conservation

  /** All there is, in order: the file, the writer's batch, the queue, the current buffer. */
  function Everything(s: Logger): seq<Entry> {
    s.file + (Flatten(s.local) + (Flatten(s.queue) + s.current))
  }

  predicate Numbered(log: seq<Entry>) {
    forall i :: 0 <= i < |log| ==> log[i].number == i
  }

  predicate Inv(s: Logger) {
    && Numbered(s.logged)
    && (s.open ==> Everything(s) == s.logged)
    && (s.local != [] ==> s.writer.Writing?)
    && (!s.open ==> s.writer.Exited? && !s.running)
    && (s.writer.ReadQueue? || s.writer.ReadCurrent? || s.writer.Exited? ==> !s.running)
    && (!s.late ==> Settled(s))
  }

  /** Without late callers, what the writer has found empty stays empty. */
  predicate Settled(s: Logger) {
    && (s.writer.ReadCurrent? ==> s.queue == [])
    && (s.writer.Exited? ==> s.queue == [] && s.current == [])
  }

  lemma {:induction false} FlattenConcat(a: seq<Buffer>, b: seq<Buffer>)
    ensures Flatten(a + b) == Flatten(a) + Flatten(b)
  {
    if a == [] {
      assert a + b == b;
    } else {
      FlattenConcat(a[1..], b);
      assert (a + b)[1..] == a[1..] + b;
      Associative(a[0], Flatten(a[1..]), Flatten(b));
    }
  }

  lemma Associative(a: seq<Entry>, b: seq<Entry>, c: seq<Entry>)
    ensures (a + b) + c == a + (b + c)
  {
  }

  lemma FlattenOne(b: Buffer)
    ensures Flatten([b]) == b
  {
    assert Flatten([b]) == b + Flatten([]);
  }

  /** Handing the current buffer over to the queue changes nothing in the order. */
  lemma HandOver(queue: seq<Buffer>, current: Buffer)
    ensures Flatten(queue + [current]) == Flatten(queue) + current
  {
    FlattenConcat(queue, [current]);
    FlattenOne(current);
  }

  lemma LogAppends(s: Logger, message: string, capacity: nat)
    ensures Everything(LogStep(s, message, capacity)) == Everything(s) + [Line(s, message)]
  {
    var line := [Line(s, message)];
    var q, l := Flatten(s.queue), Flatten(s.local);
    HandOver(s.queue, s.current);
    Associative(q, s.current, line);
    Associative(l, q + s.current, line);
    Associative(s.file, l + (q + s.current), line);
  }

  lemma SplitBatch(queue: seq<Buffer>, n: nat)
    requires n <= |queue|
    ensures Flatten(queue[..n]) + Flatten(queue[n..]) == Flatten(queue)
  {
    assert queue == queue[..n] + queue[n..];
    FlattenConcat(queue[..n], queue[n..]);
  }

  lemma CollectKeepsEverything(s: Logger, capacity: nat)
    requires s.local == []
    ensures Everything(CollectStep(s, capacity)) == Everything(s)
  {
    var q := if s.current == [] then s.queue else s.queue + [s.current];
    var n, r := BatchSize(q), CollectStep(s, capacity);
    if s.queue != [] || s.current != [] {
      HandOver(s.queue, s.current);
      SplitBatch(q, n);
      assert Flatten(r.queue) + r.current == Flatten(q[n..]);
      assert Flatten(s.local) + (Flatten(s.queue) + s.current) == Flatten(q);
    }
  }

  lemma WriteKeepsEverything(s: Logger)
    ensures Everything(WriteStep(s)) == Everything(s)
  {
    if s.local != [] {
      var rest := Flatten(s.queue) + s.current;
      Associative(s.local[0], Flatten(s.local[1..]), rest);
      Associative(s.file, s.local[0], Flatten(s.local[1..]) + rest);
    }
  }

  lemma StepKeepsInv(s: Logger, e: Event)
    requires Inv(s) && Enabled(s, e)
    ensures Inv(Apply(s, e))
  {
    match e
    case Log(message, capacity) => LogAppends(s, message, capacity);
    case Collect(capacity) => CollectKeepsEverything(s, capacity);
    case Write => WriteKeepsEverything(s);
    case _ =>
  }

  // ---------------------------------------------------------------- what each step decides

  /** A line stays in the current buffer exactly if there is room for it and its line end;
      otherwise the buffer is queued, and the line begins the next one. */
  lemma LogHandsOverIff(s: Logger, message: string, capacity: nat)
    requires Enabled(s, Log(message, capacity))
    ensures var r, line := Apply(s, Log(message, capacity)), Entry(|s.logged|, message + "\n");
      && r.logged == s.logged + [line] && r.local == s.local && r.file == s.file
      && if Size(s.current) + |message| + 1 <= s.capacity
         then r.current == s.current + [line] && r.queue == s.queue && r.capacity == s.capacity
         else r.current == [line] && r.queue == s.queue + [s.current] && r.capacity > |message|
  {
    assert |message + "\n"| == |message| + 1;
  }

  /** The writer's critical section: with nothing to write it waits. Otherwise it leaves the
      current buffer empty, behind the queue, and takes the first sixteen buffers, or all. */
  lemma CollectDecides(s: Logger, capacity: nat)
    requires Inv(s) && Enabled(s, Collect(capacity))
    ensures var r := Apply(s, Collect(capacity));
      && r.current == [] && r.file == s.file && r.logged == s.logged
      && (r.writer.Waiting? <==> s.queue == [] && s.current == [])
      && (!r.writer.Waiting? ==> r.writer.Writing? && r.local != [])
      && r.local + r.queue == s.queue + (if s.current == [] then [] else [s.current])
      && |r.local| <= 16 && (r.queue != [] ==> |r.local| == 16)
  {
  }

  /** What the writer finds outside the lock sends it to the lock; it leaves when it has found the
      logger stopped, the queue empty and the current buffer empty, in this order. */
  lemma ReadDecides(s: Logger)
    requires Enabled(s, Read)
    ensures var r := Apply(s, Read);
      && r == s.(writer := r.writer)
      && (r.writer.Locking? <==> if s.writer.ReadRunning? then s.running
                                 else if s.writer.ReadQueue? then s.queue != [] else s.current != [])
      && (r.writer.ReadQueue? <==> s.writer.ReadRunning? && !s.running)
      && (r.writer.ReadCurrent? <==> s.writer.ReadQueue? && s.queue == [])
      && (r.writer.Exited? <==> s.writer.ReadCurrent? && s.current == [])
  {
  }

  // ---------------------------------------------------------------- whole runs

  predicate Legal(s0: Logger, es: seq<Event>)
    decreases |es|, 0
  {
    es == [] || (Legal(s0, es[..|es| - 1]) && Enabled(Exec(s0, es[..|es| - 1]), es[|es| - 1]))
  }

  function Exec(s0: Logger, es: seq<Event>): Logger
    requires Legal(s0, es)
    decreases |es|, 1
  {
    if es == [] then s0 else Apply(Exec(s0, es[..|es| - 1]), es[|es| - 1])
  }

  lemma {:induction false} RunKeepsInv(s0: Logger, es: seq<Event>)
    requires Inv(s0) && Legal(s0, es)
    ensures Inv(Exec(s0, es))
  {
    if es != [] {
      RunKeepsInv(s0, es[..|es| - 1]);
      StepKeepsInv(Exec(s0, es[..|es| - 1]), es[|es| - 1]);
    }
  }

  lemma InitOk(bufferSize: nat)
    ensures Inv(Init(bufferSize))
  {
  }

  /** Until `stop` writes the rest, nothing is lost, repeated or reordered, whatever the
      interleaving; what has reached the file is the beginning of the log. */
  lemma NothingIsLost(bufferSize: nat, es: seq<Event>)
    requires Legal(Init(bufferSize), es)
    requires Exec(Init(bufferSize), es).open
    ensures var s := Exec(Init(bufferSize), es);
      && s.file + (Flatten(s.local) + (Flatten(s.queue) + s.current)) == s.logged
      && s.file <= s.logged
  {
    InitOk(bufferSize);
    RunKeepsInv(Init(bufferSize), es);
  }

  /** The last step of `stop` puts the entries in the file in order exactly when the current
      buffer or the queue holds nothing. */
  lemma FlushKeepsOrderIff(s: Logger)
    requires Inv(s) && Enabled(s, Flush)
    ensures Apply(s, Flush).file == s.logged <==> s.current == [] || Flatten(s.queue) == []
  {
    var q, r := Flatten(s.queue), Apply(s, Flush);
    assert s.local == [];
    assert s.logged == s.file + (q + s.current);
    assert r.file == s.file + (s.current + q);
    if s.current != [] && q != [] {
      assert s.logged[|s.file|] == q[0] && q[0].number == |s.file|;
      assert s.logged[|s.file| + |q|] == s.current[0] && s.current[0].number == |s.file| + |q|;
      assert r.file[|s.file|] == s.current[0];
    }
  }

  /** However late the calls, `stop` puts every entry logged so far into the file once. */
  lemma FlushWritesEachOnce(s: Logger)
    requires Inv(s) && Enabled(s, Flush)
    ensures multiset(Apply(s, Flush).file) == multiset(s.logged)
  {
    var q := Flatten(s.queue);
    assert s.logged == s.file + (q + s.current);
    assert Apply(s, Flush).file == s.file + (s.current + q);
  }

  lemma TimelyStep(s: Logger, e: Event)
    requires Inv(s) && Enabled(s, e) && !Apply(s, e).open && !Apply(s, e).late
    requires !s.open && !s.late ==> s.file == s.logged
    ensures Apply(s, e).file == Apply(s, e).logged
  {
    if s.open { FlushKeepsOrderIff(s); }
  }

  /** If no call of `log` overlaps or follows `stop`, the file holds the whole log, in order,
      when `stop` returns. */
  lemma {:induction false} StopWritesEverything(bufferSize: nat, es: seq<Event>)
    requires Legal(Init(bufferSize), es)
    requires var s := Exec(Init(bufferSize), es); !s.open && !s.late
    ensures var s := Exec(Init(bufferSize), es); s.file == s.logged
  {
    if es != [] {
      var p := Exec(Init(bufferSize), es[..|es| - 1]);
      InitOk(bufferSize);
      RunKeepsInv(Init(bufferSize), es[..|es| - 1]);
      if !p.open && !p.late { StopWritesEverything(bufferSize, es[..|es| - 1]); }
      TimelyStep(p, es[|es| - 1]);
    }
  }

  lemma Extend(s0: Logger, es: seq<Event>, e: Event)
    requires Legal(s0, es) && Enabled(Exec(s0, es), e)
    ensures Legal(s0, es + [e]) && Exec(s0, es + [e]) == Apply(Exec(s0, es), e)
  {
    assert (es + [e])[..|es|] == es;
  }

  const STOPPING := [Stop] + [Read] + [Read] + [Read]

  lemma WriterHasLeft(bufferSize: nat)
    ensures Legal(Init(bufferSize), STOPPING)
    ensures Exec(Init(bufferSize), STOPPING) == Init(bufferSize).(running := false, writer := Exited)
  {
    var s0 := Init(bufferSize);
    assert [] + [Stop] == [Stop];
    Extend(s0, [], Stop);
    Extend(s0, [Stop], Read);
    Extend(s0, [Stop] + [Read], Read);
    Extend(s0, [Stop] + [Read] + [Read], Read);
  }

  lemma TwoLateCalls(s: Logger, first: string, second: string)
    requires s.queue == [] && s.current == [] && s.capacity == |first + "\n"|
    ensures
      var one := LogStep(s, first, s.capacity);
      var two := LogStep(one, second, |second + "\n"|);
      && !Full(s, first) && Full(one, second)
      && FlushStep(two).file == s.file + [Line(one, second), Line(s, first)]
  {
    var line := Line(s, first);
    assert [line][..0] == [] && Size([line]) == |first + "\n"|;
    FlattenOne([line]);
    var one := LogStep(s, first, s.capacity);
    var two := LogStep(one, second, |second + "\n"|);
    assert one.current == [line] && two.queue == [[line]] && two.current == [Line(one, second)];
    assert s.file + [Line(one, second)] + [line] == s.file + [Line(one, second), line];
  }

  /** A run in which two calls come after the writer has left, and the first line fills the
      buffer: the two lines are in the file in reverse order when `stop` returns. */
  lemma LateEntriesAreReversed(first: string, second: string)
    ensures
      var size := |first + "\n"|;
      var es := STOPPING + [Log(first, size)] + [Log(second, |second + "\n"|)] + [Flush];
      && Legal(Init(size), es)
      && Exec(Init(size), es).file == [Entry(1, second + "\n"), Entry(0, first + "\n")]
  {
    var size := |first + "\n"|;
    var e0, e1 := Log(first, size), Log(second, |second + "\n"|);
    WriterHasLeft(size);
    TwoLateCalls(Exec(Init(size), STOPPING), first, second);
    Extend(Init(size), STOPPING, e0);
    Extend(Init(size), STOPPING + [e0], e1);
    Extend(Init(size), STOPPING + [e0] + [e1], Flush);
  }

  // ---------------------------------------------------------------- stop returns

  function Pending(s: Logger): nat { |s.queue| + if s.current == [] then 0 else 1 }

  /** Steps the writer has to take, once nothing is logged any more. */
  function StepsLeft(s: Logger): nat {
    6 * Pending(s) + |s.local| + match s.writer
      case Locking => if Pending(s) == 0 then 6 else 1
      case Waiting => 5
      case Writing => 5
      case ReadRunning => 4
      case ReadQueue => 3
      case ReadCurrent => 2
      case Exited => 0
  }

  predicate IsWriterStep(e: Event) { e.Read? || e.Collect? || e.Wake? || e.Write? }

  /** After `stop` has begun and with nobody logging, every step of the writer brings its end
      nearer; and until it has left it has a step to take. So `join` returns. */
  lemma WriterFinishes(s: Logger, e: Event)
    requires Inv(s) && !s.running && !s.late && Enabled(s, e) && IsWriterStep(e)
    ensures StepsLeft(Apply(s, e)) < StepsLeft(s)
  {
  }

  function NextWriterStep(s: Logger): Event {
    match s.writer
    case Locking => Collect(0)
    case Waiting => Wake
    case Writing => Write
    case _ => Read
  }

  lemma ExtendBoth(s: Logger, es: seq<Event>, r: Logger, fs: seq<Event>, e: Event)
    requires Legal(s, es) && Legal(r, fs) && Exec(s, es) == Exec(r, fs) && Enabled(Exec(r, fs), e)
    ensures Legal(s, es + [e]) && Legal(r, fs + [e]) && Exec(s, es + [e]) == Exec(r, fs + [e])
  {
    Extend(s, es, e);
    Extend(r, fs, e);
  }

  lemma {:induction false} Prepend(s: Logger, e: Event, es: seq<Event>)
    requires Enabled(s, e) && Legal(Apply(s, e), es)
    ensures Legal(s, [e] + es) && Exec(s, [e] + es) == Exec(Apply(s, e), es)
  {
    if es == [] {
      assert [e] + es == [] + [e];
      Extend(s, [], e);
    } else {
      var front, last := es[..|es| - 1], es[|es| - 1];
      assert es == front + [last] && [e] + es == ([e] + front) + [last];
      Prepend(s, e, front);
      ExtendBoth(s, [e] + front, Apply(s, e), front, last);
    }
  }

  lemma {:induction false} WriterLeaves(s: Logger) returns (es: seq<Event>)
    requires Inv(s) && !s.running && !s.late && s.open
    ensures |es| <= StepsLeft(s) && (forall e :: e in es ==> IsWriterStep(e))
    ensures Legal(s, es) && Enabled(Exec(s, es), Flush)
    decreases StepsLeft(s)
  {
    es := [];
    if !s.writer.Exited? {
      var e := NextWriterStep(s);
      StepKeepsInv(s, e);
      WriterFinishes(s, e);
      var rest := WriterLeaves(Apply(s, e));
      Prepend(s, e, rest);
      es := [e] + rest;
    }
  }

  // ---------------------------------------------------------------- the logger itself

  /** A whole batch written, and the list of buffers cleared. */
  function WriteAll(s: Logger): Logger {
    s.(file := s.file + Flatten(s.local), local := [], writer := ReadRunning)
  }

  /** One `Write` for each buffer and one for the end of the loop do just that. */
  lemma {:induction false} WriteAllIsSteps(s: Logger) returns (es: seq<Event>)
    requires Inv(s) && s.writer.Writing?
    ensures |es| == |s.local| + 1 && (forall e :: e in es ==> e.Write?)
    ensures Legal(s, es) && Exec(s, es) == WriteAll(s)
    decreases |s.local|
  {
    if s.local == [] {
      WriteNothing(s);
      es := [Write];
    } else {
      WriteOneMore(s);
      var rest := WriteAllIsSteps(Apply(s, Write));
      Prepend(s, Write, rest);
      es := [Write] + rest;
    }
  }

  lemma WriteNothing(s: Logger)
    requires s.writer.Writing? && s.local == []
    ensures Legal(s, [Write]) && Exec(s, [Write]) == WriteAll(s)
  {
    assert [Write] == [] + [Write] && s.file + [] == s.file;
    Extend(s, [], Write);
  }

  lemma WriteOneMore(s: Logger)
    requires Inv(s) && s.writer.Writing? && s.local != []
    ensures var r := Apply(s, Write);
      Inv(r) && r.writer.Writing? && r.local == s.local[1..] && WriteAll(r) == WriteAll(s)
  {
    StepKeepsInv(s, Write);
    Associative(s.file, s.local[0], Flatten(s.local[1..]));
  }

  /** One turn of the writer, from the lock to the end of its batch, brings everything logged so
      far into the file, the line logged last included, exactly when no buffer with a line in it is
      left behind the sixteenth. */
  lemma TurnCatchesUpIff(s: Logger, capacity: nat)
    requires Inv(s) && s.open && Enabled(s, Collect(capacity)) && (s.queue != [] || s.current != [])
    ensures var r := Apply(s, Collect(capacity));
      && r.writer.Writing?
      && (WriteAll(r).file == s.logged <==> Flatten(r.queue) == [])
      && (|s.queue| < 16 ==> r.queue == [])
  {
    CollectDecides(s, capacity);
    CollectKeepsEverything(s, capacity);
    var r := Apply(s, Collect(capacity));
    CaughtUpIff(r.file, Flatten(r.local), Flatten(r.queue));
    assert r.current == [] && Flatten(r.queue) + [] == Flatten(r.queue);
  }

  lemma CaughtUpIff(file: seq<Entry>, batch: seq<Entry>, rest: seq<Entry>)
    ensures file + batch == file + (batch + rest) <==> rest == []
  {
    if rest == [] { assert batch + rest == batch; } else { assert |file + (batch + rest)| > |file + batch|; }
  }

  lemma OneBufferMore(file: seq<Entry>, batch: seq<Buffer>, i: nat)
    requires i < |batch|
    ensures file + Flatten(batch[..i]) + batch[i] == file + Flatten(batch[..i + 1])
  {
    HandOver(batch[..i], batch[i]);
    assert batch[..i + 1] == batch[..i] + [batch[i]];
    Associative(file, Flatten(batch[..i]), batch[i]);
  }

  class AsyncLogger {
    const bufferSize: nat
    var running: bool
    var currentBuffer: Buffer
    var capacity: nat
    var buffersToWrite: seq<Buffer>
    var localBuffers: seq<Buffer>
    var logFile: seq<Entry>
    var isOpen: bool
    var writer: Writer
    ghost var logged: seq<Entry>
    ghost var late: bool

    ghost function St(): Logger
      reads this
    {
      Logger(running, currentBuffer, capacity, buffersToWrite, localBuffers, logFile, isOpen, writer, logged, late)
    }

    constructor (bufferSize: nat)
      ensures St() == Init(bufferSize) && this.bufferSize == bufferSize
    {
      this.bufferSize := bufferSize;
      running, isOpen, capacity := true, true, bufferSize;
      currentBuffer, buffersToWrite, localBuffers, logFile := [], [], [], [];
      writer := ReadRunning;
      logged, late := [], false;
    }

    method BufferedSize() returns (n: nat)
      ensures n == Size(currentBuffer)
    {
      n := 0;
      for i := 0 to |currentBuffer|
        invariant n == Size(currentBuffer[..i])
      {
        assert currentBuffer[..i + 1][..i] == currentBuffer[..i];
        n := n + |currentBuffer[i].text|;
      }
      assert currentBuffer[..|currentBuffer|] == currentBuffer;
    }

    /** `grown`: the capacity of the current buffer after the append. */
    method Log(message: string, number: nat, grown: nat)
      requires number == |logged| && Enabled(St(), Event.Log(message, grown))
      modifies this
      ensures St() == Apply(old(St()), Event.Log(message, grown))
    {
      var size := BufferedSize();
      var entry := message + "\n";
      if capacity - size < |entry| {
        buffersToWrite := buffersToWrite + [currentBuffer];
        currentBuffer := [];
      }
      currentBuffer := currentBuffer + [Entry(number, entry)];
      capacity := grown;
      logged := logged + [Entry(number, entry)];
      late := late || !running;
    }

    /** One of the three reads of the writer's loop condition, outside the lock. */
    method TestCondition() returns (goOn: bool)
      requires Enabled(St(), Event.Read)
      modifies this`writer
      ensures St() == Apply(old(St()), Event.Read) && (goOn <==> writer.Locking?)
    {
      match writer {
        case ReadRunning => goOn := running;
        case ReadQueue => goOn := buffersToWrite != [];
        case ReadCurrent => goOn := currentBuffer != [];
      }
      writer := if goOn then Locking else if writer.ReadRunning? then ReadQueue
                else if writer.ReadQueue? then ReadCurrent else Exited;
    }

    /** The writer's critical section; `reserved` is the capacity of the new current buffer. */
    method Collect(reserved: nat)
      requires writer.Locking? && localBuffers == []
      modifies this
      ensures St() == Apply(old(St()), Event.Collect(reserved))
    {
      if buffersToWrite == [] && currentBuffer == [] {
        writer := Waiting;
        return;
      }
      if currentBuffer != [] {
        buffersToWrite := buffersToWrite + [currentBuffer];
        currentBuffer := [];
        capacity := reserved;
      }
      TakeBatch();
      writer := Writing;
    }

    method TakeBatch()
      requires localBuffers == []
      modifies this`localBuffers, this`buffersToWrite
      ensures var n := BatchSize(old(buffersToWrite));
        localBuffers == old(buffersToWrite)[..n] && buffersToWrite == old(buffersToWrite)[n..]
    {
      ghost var queue := buffersToWrite;
      while buffersToWrite != [] && |localBuffers| < MAX_BATCH
        invariant |localBuffers| <= BatchSize(queue)
        invariant localBuffers == queue[..|localBuffers|] && buffersToWrite == queue[|localBuffers|..]
        decreases |buffersToWrite|
      {
        localBuffers := localBuffers + [buffersToWrite[0]];
        buffersToWrite := buffersToWrite[1..];
      }
    }

    /** The batch goes to the file, one buffer after the other. */
    method WriteBatch()
      requires writer.Writing?
      modifies this
      ensures St() == WriteAll(old(St()))
    {
      var i := 0;
      while i < |localBuffers|
        invariant 0 <= i <= |localBuffers|
        invariant logFile == old(logFile) + Flatten(localBuffers[..i])
        modifies this`logFile
      {
        OneBufferMore(old(logFile), localBuffers, i);
        if localBuffers[i] != [] {
          logFile := logFile + localBuffers[i];
        }
        i := i + 1;
      }
      assert localBuffers[..i] == localBuffers;
      localBuffers := [];
      writer := ReadRunning;
    }

    method BeginStop() returns (first: bool)
      modifies this`running
      ensures first == old(running)
      ensures if first then St() == Apply(old(St()), Event.Stop) else St() == old(St())
    {
      first := running;
      running := false;
    }

    /** What `stop` does once the writer has been joined. */
    method FlushRest()
      requires Enabled(St(), Event.Flush)
      modifies this
      ensures St() == Apply(old(St()), Event.Flush)
    {
      if currentBuffer != [] {
        logFile := logFile + currentBuffer;
      }
      while buffersToWrite != []
        invariant logFile + Flatten(buffersToWrite) == old(logFile) + old(currentBuffer) + Flatten(old(buffersToWrite))
        invariant St() == old(St()).(file := logFile, queue := buffersToWrite)
        decreases |buffersToWrite|
      {
        Associative(logFile, buffersToWrite[0], Flatten(buffersToWrite[1..]));
        logFile := logFile + buffersToWrite[0];
        buffersToWrite := buffersToWrite[1..];
      }
      isOpen := false;
    }
  }
}
