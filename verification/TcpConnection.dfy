/**
 The output path of a connection: direct writes, buffered output, errors, and the half-close
 that waits for the buffer to drain. The kernel takes as many bytes of a write as it likes.
 Messages are sent on the loop's thread; `shutdown` may be called on any.
 */
module TcpConnections {
  import opened Buffers

  datatype State = Connecting | Connected | Disconnecting | Disconnected

  datatype Errno = WouldBlock | BrokenPipe | ConnectionReset | Other

  /** The result of `write`. */
  datatype WriteResult = Wrote(n: nat) | Failed(err: Errno)

  /** `out`: the readable bytes of the output buffer; `wire`: what the kernel has taken;
      `shutdowns`: how often the write side was shut down; `removed`: the channel is no
      longer in the poller; `asking`: other threads that have found the connection connected
      in `shutdown`, and will set its state; `owed`: functors that such calls have queued. */
  datatype Conn = Conn(
    state: State, writing: bool, out: string, wire: string, shutdowns: nat, removed: bool, asking: nat, owed: nat)

  function Init(): Conn { Conn(Connecting, false, "", "", 0, false, 0, 0) }

  datatype Event =
    | Established
    | Send(msg: string, result: WriteResult)
    | Writable(result: WriteResult)
    | Close
    | Shutdown
    | Destroyed
    // `shutdown` on another thread, and what it queues
    | OtherTest
    | OtherSet
    | RunShutdown

  predicate Takes(result: WriteResult, len: nat) {
    result.Wrote? ==> result.n <= len
  }

  predicate Enabled(s: Conn, e: Event) {
    match e
    case Established => s.state.Connecting?
    case Send(msg, result) => Takes(result, |msg|)
    case Writable(result) => !s.removed && Takes(result, |s.out|)
    case Close => !s.removed && !s.state.Connecting?
    case Shutdown => true
    case Destroyed => !s.removed && !s.state.Connecting?
    case OtherTest => s.state.Connected?
    case OtherSet => s.asking > 0
    case RunShutdown => s.owed > 0
  }

  predicate WritesDirectly(s: Conn) { !s.writing && s.out == "" }

  predicate IsFault(result: WriteResult) {
    result.Failed? && (result.err.BrokenPipe? || result.err.ConnectionReset?)
  }

  /** When a message is dropped: not connected, or nothing is waiting and the direct write finds
      the peer gone. No other error drops it. */
  predicate Drops(s: Conn, result: WriteResult) {
    || s.state != Connected
    || (!s.writing && s.out == "" && (result == Failed(BrokenPipe) || result == Failed(ConnectionReset)))
  }

  /** `sendInLoop`, which gives up only on a connection that is gone. */
  function SendInLoopStep(s: Conn, msg: string, result: WriteResult): Conn
    requires Takes(result, |msg|)
  {
    if s.state.Disconnected? || (WritesDirectly(s) && IsFault(result)) then s else
    var n := if WritesDirectly(s) && result.Wrote? then result.n else 0;
    s.(wire := s.wire + msg[..n], out := s.out + msg[n..], writing := s.writing || n < |msg|)
  }

  function SendStep(s: Conn, msg: string, result: WriteResult): Conn
    requires Takes(result, |msg|)
  {
    if s.state.Connected? then SendInLoopStep(s, msg, result) else s
  }

  function ShutdownInLoop(s: Conn): Conn {
    if s.writing then s else s.(shutdowns := s.shutdowns + 1)
  }

  function WritableStep(s: Conn, result: WriteResult): Conn
    requires Takes(result, |s.out|)
  {
    if !s.writing || result.Failed? || result.n == 0 then s else
    var r := s.(wire := s.wire + s.out[..result.n], out := s.out[result.n..]);
    if r.out != "" then r
    else if s.state.Disconnecting? then ShutdownInLoop(r.(writing := false))
    else r.(writing := false)
  }

  function Apply(s: Conn, e: Event): Conn
    requires Enabled(s, e)
  {
    match e
    case Established => s.(state := Connected)
    case Send(msg, result) => SendStep(s, msg, result)
    case Writable(result) => WritableStep(s, result)
    case Close => s.(state := Disconnected, writing := false)
    case Shutdown => if s.state.Connected? then ShutdownInLoop(s.(state := Disconnecting)) else s
    case Destroyed =>
      if s.state.Connected? then s.(state := Disconnected, writing := false, removed := true) else s.(removed := true)
    case OtherTest => s.(asking := s.asking + 1)
    case OtherSet => s.(state := Disconnecting, asking := s.asking - 1, owed := s.owed + 1)
    case RunShutdown => ShutdownInLoop(s.(owed := s.owed - 1))
  }

  // ---------------------------------------------------------------- invariant

  /** What holds as long as no other thread has got as far as to set the state. */
  predicate Inv(s: Conn) {
    && s.owed == 0
    && (s.state.Connected? || s.state.Disconnecting? ==> (s.writing <==> s.out != ""))
    && (match s.state
        case Connecting => !s.writing && s.out == "" && s.wire == "" && s.shutdowns == 0
        case Connected => s.shutdowns == 0
        case Disconnecting => s.shutdowns == if s.out == "" then 1 else 0
        case Disconnected => !s.writing && (s.shutdowns == 0 || (s.shutdowns == 1 && s.out == "")))
  }

  lemma StepKeepsInv(s: Conn, e: Event)
    requires Inv(s) && Enabled(s, e) && !e.OtherSet?
    ensures Inv(Apply(s, e))
  {
  }

  // ---------------------------------------------------------------- whole runs

  predicate Legal(s0: Conn, es: seq<Event>)
    decreases |es|, 0
  {
    es == [] || (Legal(s0, es[..|es| - 1]) && Enabled(Exec(s0, es[..|es| - 1]), es[|es| - 1]))
  }

  function Exec(s0: Conn, es: seq<Event>): Conn
    requires Legal(s0, es)
    decreases |es|, 1
  {
    if es == [] then s0 else Apply(Exec(s0, es[..|es| - 1]), es[|es| - 1])
  }

  /** Nobody but the loop's thread shuts the connection down. */
  predicate ShutsDownInLoop(es: seq<Event>) {
    forall e :: e in es ==> !e.OtherSet?
  }

  lemma {:induction false} RunKeepsInv(s0: Conn, es: seq<Event>)
    requires Inv(s0) && Legal(s0, es) && ShutsDownInLoop(es)
    ensures Inv(Exec(s0, es))
  {
    if es != [] {
      assert es[|es| - 1] in es && forall e :: e in es[..|es| - 1] ==> e in es;
      RunKeepsInv(s0, es[..|es| - 1]);
      StepKeepsInv(Exec(s0, es[..|es| - 1]), es[|es| - 1]);
    }
  }

  /** The part of the stream that a step adds: a message, unless it is dropped. */
  function Added(s: Conn, e: Event): string {
    if e.Send? && !Drops(s, e.result) then e.msg else ""
  }

  /** The messages of a run that were not dropped, one behind the other. */
  function Kept(s0: Conn, es: seq<Event>): string
    requires Legal(s0, es)
  {
    if es == [] then "" else Kept(s0, es[..|es| - 1]) + Added(Exec(s0, es[..|es| - 1]), es[|es| - 1])
  }

  lemma SendKeepsStream(s: Conn, msg: string, result: WriteResult)
    requires Takes(result, |msg|) && !Drops(s, result)
    ensures var r := SendStep(s, msg, result); r.wire + r.out == s.wire + s.out + msg
  {
    var n := if WritesDirectly(s) && result.Wrote? then result.n else 0;
    var w, q, a, b := s.wire, s.out, msg[..n], msg[n..];
    assert msg == a + b;
    if q == "" {
      assert w + a + ("" + b) == w + "" + (a + b);
    } else {
      assert w + "" + (q + b) == w + q + b;
    }
  }

  lemma WritableKeepsStream(s: Conn, result: WriteResult)
    requires Takes(result, |s.out|)
    ensures var r := WritableStep(s, result); r.wire + r.out == s.wire + s.out
  {
    if s.writing && result.Wrote? {
      var w, a, b := s.wire, s.out[..result.n], s.out[result.n..];
      assert w + a + b == w + (a + b) && s.out == a + b;
    }
  }

  lemma StepKeepsStream(s: Conn, e: Event)
    requires Enabled(s, e)
    ensures var r := Apply(s, e); r.wire + r.out == s.wire + s.out + Added(s, e)
  {
    assert s.wire + s.out + "" == s.wire + s.out;
    match e
    case Send(msg, result) => if !Drops(s, result) { SendKeepsStream(s, msg, result); }
    case Writable(result) => WritableKeepsStream(s, result);
    case _ =>
  }

  /** Whatever the kernel takes and whichever errors occur: what it has taken, followed by
      what is buffered, is the concatenation of the messages that were not dropped. */
  lemma {:induction false} StreamIntegrity(s0: Conn, es: seq<Event>)
    requires Legal(s0, es)
    ensures Exec(s0, es).wire + Exec(s0, es).out == s0.wire + s0.out + Kept(s0, es)
  {
    if es != [] {
      StreamIntegrity(s0, es[..|es| - 1]);
      StepKeepsStream(Exec(s0, es[..|es| - 1]), es[|es| - 1]);
    }
  }

  /** In any run of a new connection that is shut down on the loop's thread only, the write
      side is shut down at most once, and then every byte that was not dropped is in the
      kernel; while the connection waits for its shutdown, it is still to come exactly as long
      as bytes are buffered; and the poller watches for writability exactly as long as there
      is something to write. */
  lemma HalfClose(es: seq<Event>)
    requires Legal(Init(), es) && ShutsDownInLoop(es)
    ensures var s := Exec(Init(), es);
      && s.shutdowns <= 1
      && (s.shutdowns == 1 ==> s.wire == Kept(Init(), es))
      && (s.state.Disconnecting? ==> (s.shutdowns == 1 <==> s.out == ""))
      && (s.state.Connected? || s.state.Disconnecting? ==> (s.writing <==> s.out != ""))
  {
    RunKeepsInv(Init(), es);
    StreamIntegrity(Init(), es);
    var s := Exec(Init(), es);
    assert s.out == "" ==> s.wire + s.out == s.wire;
    assert "" + "" + Kept(Init(), es) == Kept(Init(), es);
  }

  /** The step that drains the buffer after a shutdown request is the one that shuts down. */
  lemma DrainShutsDown(s: Conn, result: WriteResult)
    requires Inv(s) && Enabled(s, Writable(result)) && s.state.Disconnecting? && s.out != ""
    ensures var r := Apply(s, Writable(result));
      r.shutdowns == s.shutdowns + 1 <==> result == Wrote(|s.out|)
  {
  }

  // ---------------------------------------------------------------- what each event decides

  /** A message goes to the kernel as far as it is taken, if nothing is waiting in front of it, and
      behind what is waiting otherwise; the rest is buffered, and the poller told. Only EPIPE and
      ECONNRESET of a direct write drop it. */
  lemma SendDecides(s: Conn, msg: string, result: WriteResult)
    requires Takes(result, |msg|)
    ensures var r := Apply(s, Send(msg, result));
      if !s.state.Connected? then r == s
      else if s.writing || s.out != "" then r == s.(out := s.out + msg, writing := s.writing || msg != "")
      else match result
        case Wrote(n) => r == s.(wire := s.wire + msg[..n], out := msg[n..], writing := n < |msg|)
        case Failed(BrokenPipe) => r == s
        case Failed(ConnectionReset) => r == s
        case Failed(WouldBlock) => r == s.(out := msg, writing := msg != "")
        case Failed(Other) => r == s.(out := msg, writing := msg != "")
  {
    assert s.wire + msg[..0] == s.wire && msg[0..] == msg && "" + msg == msg;
    if result.Wrote? { assert "" + msg[result.n..] == msg[result.n..]; }
  }

  /** A write event moves what the kernel takes, from the front; the poller is told when nothing is
      left, and an error or an empty write changes nothing. */
  lemma WritableDecides(s: Conn, result: WriteResult)
    requires Enabled(s, Writable(result))
    ensures var r := Apply(s, Writable(result));
      if s.writing && result.Wrote? && result.n > 0 then
        && r.wire == s.wire + s.out[..result.n] && r.out == s.out[result.n..]
        && (r.writing <==> result.n < |s.out|) && r.state == s.state
      else r == s
  {
  }

  /** The write side is shut down by three events and no other, once each time: a request that
      finds the channel not writing, a queued functor that does, and the write event that empties
      the buffer of a connection that waits for it. */
  lemma ShutsDownIff(s: Conn, e: Event)
    requires Enabled(s, e)
    ensures var r := Apply(s, e);
      && (r.shutdowns != s.shutdowns <==>
            || (e.Shutdown? && s.state.Connected? && !s.writing)
            || (e.RunShutdown? && !s.writing)
            || (e == Writable(Wrote(|s.out|)) && s.state.Disconnecting? && s.writing && s.out != ""))
      && (r.shutdowns != s.shutdowns ==> r.shutdowns == s.shutdowns + 1)
  {
  }

  /** The state after an event, and what an event that is not about writing does beside it. */
  lemma StateDecides(s: Conn, e: Event)
    requires Enabled(s, e)
    ensures var r, was := Apply(s, e), s.state;
      && r.state == (match e
           case Established => Connected
           case Close => Disconnected
           case Shutdown => if was.Connected? then Disconnecting else was
           case Destroyed => if was.Connected? then Disconnected else was
           case OtherSet => Disconnecting
           case _ => was)
      && (r.removed <==> s.removed || e.Destroyed?)
      && r.asking == s.asking + (if e.OtherTest? then 1 else if e.OtherSet? then -1 else 0)
      && r.owed == s.owed + (if e.OtherSet? then 1 else if e.RunShutdown? then -1 else 0)
      && (!e.Send? && !e.Writable? ==>
            && r.wire == s.wire && r.out == s.out
            && (r.writing <==> s.writing && !e.Close? && !(e.Destroyed? && was.Connected?)))
  {
  }

  // ---------------------------------------------------------------- shutdown on another thread

  /** At most one shutdown of the write side, and only with nothing left to write. */
  predicate ClosedWell(s: Conn) {
    s.shutdowns <= 1 && (s.shutdowns == 1 ==> s.out == "")
  }

  /** `sendInLoop` does not look whether the connection is disconnecting, so a send whose test
      of the state comes before another thread sets it is a send before that. */
  lemma SendSeesNoShutdown(s: Conn, msg: string, result: WriteResult)
    requires s.state.Connected? && Takes(result, |msg|)
    ensures SendInLoopStep(s.(state := Disconnecting), msg, result) ==
      SendInLoopStep(s, msg, result).(state := Disconnecting)
  {
  }

  /** The call is the only one, there is nothing to write, and nothing has been shut down. */
  predicate NothingToWaitFor(s: Conn) {
    s.asking == 1 && s.out == "" && s.shutdowns == 0
  }

  /** The channel is out of the poller with bytes still to write: nothing will happen any more. */
  predicate IsStuck(s: Conn) { s.removed && s.writing }

  /** Another thread sets the state. Every run from there on shuts the write side down at most
      once, and with nothing left to write, exactly when there was nothing to write, nothing
      had been shut down before and no third thread is about to set the state, too; or when
      the connection is stuck and will never be shut down. */
  lemma OtherShutdownIff(s: Conn)
    requires Inv(s) && s.asking > 0
    ensures (forall es :: Legal(Apply(s, OtherSet), es) ==> ClosedWell(Exec(Apply(s, OtherSet), es))) <==>
      NothingToWaitFor(s) || IsStuck(s)
  {
    var r := Apply(s, OtherSet);
    if NothingToWaitFor(s) || IsStuck(s) {
      forall es | Legal(r, es) ensures ClosedWell(Exec(r, es)) {
        if IsStuck(s) { StuckStays(r, es); } else { QuietStays(r, es); }
      }
    } else {
      var es := BadRun(s);
      assert !ClosedWell(Exec(r, es));
    }
  }

  /** After the call, with nothing to write: one shutdown at most is still to come. */
  predicate Quiet(s: Conn) {
    && (s.state.Disconnecting? || s.state.Disconnected?)
    && s.out == "" && !s.writing && s.shutdowns + s.owed + s.asking <= 1
  }

  predicate Stuck(s: Conn) {
    IsStuck(s) && (s.state.Disconnecting? || s.state.Disconnected?) && s.shutdowns == 0
  }

  lemma {:induction false} QuietStays(s: Conn, es: seq<Event>)
    requires Quiet(s) && Legal(s, es)
    ensures Quiet(Exec(s, es))
  {
    if es != [] { QuietStays(s, es[..|es| - 1]); }
  }

  lemma {:induction false} StuckStays(s: Conn, es: seq<Event>)
    requires Stuck(s) && Legal(s, es)
    ensures Stuck(Exec(s, es))
  {
    if es != [] { StuckStays(s, es[..|es| - 1]); }
  }

  lemma Extend(s0: Conn, es: seq<Event>, e: Event)
    requires Legal(s0, es) && Enabled(Exec(s0, es), e)
    ensures Legal(s0, es + [e]) && Exec(s0, es + [e]) == Apply(Exec(s0, es), e)
  {
    assert (es + [e])[..|es|] == es;
  }

  lemma ThenOne(s: Conn, e: Event)
    requires Enabled(s, e)
    ensures Legal(s, [e]) && Exec(s, [e]) == Apply(s, e)
  {
    assert [] + [e] == [e];
    Extend(s, [], e);
  }

  /** The run that goes wrong: the buffer drains, and then the functor shuts down again; or the
      functor shuts down what is closed with bytes unsent; or it is one functor too many. */
  lemma BadRun(s: Conn) returns (es: seq<Event>)
    requires Inv(s) && s.asking > 0 && !NothingToWaitFor(s) && !IsStuck(s)
    ensures Legal(Apply(s, OtherSet), es) && !ClosedWell(Exec(Apply(s, OtherSet), es))
  {
    var r := Apply(s, OtherSet);
    if s.writing {
      DrainedThenShutDown(r);
      es := [Writable(Wrote(|s.out|))] + [RunShutdown];
    } else if s.out != "" || s.shutdowns > 0 {
      ThenOne(r, RunShutdown);
      es := [RunShutdown];
    } else {
      ThenOne(r, OtherSet);
      Extend(r, [OtherSet], RunShutdown);
      Extend(r, [OtherSet] + [RunShutdown], RunShutdown);
      es := [OtherSet] + [RunShutdown] + [RunShutdown];
    }
  }

  lemma DrainedThenShutDown(r: Conn)
    requires r.state.Disconnecting? && r.writing && r.out != "" && !r.removed && r.owed > 0
    ensures var es := [Writable(Wrote(|r.out|))] + [RunShutdown];
      Legal(r, es) && Exec(r, es).shutdowns == r.shutdowns + 2
  {
    ThenOne(r, Writable(Wrote(|r.out|)));
    Extend(r, [Writable(Wrote(|r.out|))], RunShutdown);
  }

  /** The kernel takes nothing of a message at first; then another thread calls `shutdown`. */
  function AskedElsewhere(msg: string): seq<Event> {
    [Established] + [Send(msg, Wrote(0))] + [OtherTest] + [OtherSet]
  }

  lemma AfterAsking(msg: string)
    requires msg != ""
    ensures Legal(Init(), AskedElsewhere(msg))
    ensures Exec(Init(), AskedElsewhere(msg)) == Conn(Disconnecting, true, msg, "", 0, false, 0, 1)
  {
    var e1 := Send(msg, Wrote(0));
    ThenOne(Init(), Established);
    Extend(Init(), [Established], e1);
    SendIsBuffered(Exec(Init(), [Established]), msg);
    Extend(Init(), [Established] + [e1], OtherTest);
    Extend(Init(), [Established] + [e1] + [OtherTest], OtherSet);
  }

  lemma SendIsBuffered(s: Conn, msg: string)
    requires s.state.Connected? && s.out == "" && !s.writing && msg != ""
    ensures SendStep(s, msg, Wrote(0)) == s.(out := msg, writing := true)
  {
    assert s.wire + msg[..0] == s.wire && "" + msg[0..] == msg;
  }

  /** A run of a new connection in which the buffer drains before the functor runs: the write
      side is shut down twice. */
  lemma ShutDownTwice(msg: string)
    requires msg != ""
    ensures var es := AskedElsewhere(msg) + [Writable(Wrote(|msg|))] + [RunShutdown];
      Legal(Init(), es) && Exec(Init(), es).shutdowns == 2
  {
    AfterAsking(msg);
    Extend(Init(), AskedElsewhere(msg), Writable(Wrote(|msg|)));
    Extend(Init(), AskedElsewhere(msg) + [Writable(Wrote(|msg|))], RunShutdown);
  }

  /** And one in which the peer closes before: it is shut down over the unsent message. */
  lemma ShutDownUnsent(msg: string)
    requires msg != ""
    ensures var es := AskedElsewhere(msg) + [Close] + [RunShutdown];
      Legal(Init(), es) && Exec(Init(), es).shutdowns == 1 && Exec(Init(), es).out == msg
  {
    AfterAsking(msg);
    Extend(Init(), AskedElsewhere(msg), Close);
    Extend(Init(), AskedElsewhere(msg) + [Close], RunShutdown);
  }

  // ---------------------------------------------------------------- the connection itself

  class TcpConnection {
    var state: State
    var isWriting: bool
    var isReading: bool
    const outputBuffer: Buffer
    ghost var wire: string
    ghost var shutdowns: nat
    ghost var removed: bool
    ghost var asking: nat
    ghost var owed: nat

    ghost predicate Valid()
      reads this, outputBuffer
    {
      outputBuffer.Valid()
    }

    ghost function St(): Conn
      requires Valid()
      reads this, outputBuffer, outputBuffer.data
    {
      Conn(state, isWriting, outputBuffer.Contents(), wire, shutdowns, removed, asking, owed)
    }

    constructor ()
      ensures Valid() && St() == Init() && fresh(outputBuffer) && fresh(outputBuffer.data)
    {
      state, isWriting, isReading := Connecting, false, false;
      outputBuffer := new Buffer();
      wire, shutdowns, removed, asking, owed := "", 0, false, 0, 0;
    }

    method ConnectEstablished()
      requires Valid() && state.Connecting?
      modifies this
      ensures Valid() && isReading && St() == Apply(old(St()), Established)
    {
      state := Connected;
      isReading := true;
    }

    /** `send` on the loop's thread; `result` is what `write` would return. */
    method Send(msg: string, result: WriteResult)
      requires Valid() && Takes(result, |msg|)
      modifies this, outputBuffer, outputBuffer.data
      ensures Valid() && (fresh(outputBuffer.data) || outputBuffer.data == old(outputBuffer.data))
      ensures St() == Apply(old(St()), Event.Send(msg, result))
    {
      if state == Connected {
        SendInLoop(msg, result);
      }
    }

    method SendInLoop(data: string, result: WriteResult)
      requires Valid() && Takes(result, |data|)
      modifies this, outputBuffer, outputBuffer.data
      ensures Valid() && (fresh(outputBuffer.data) || outputBuffer.data == old(outputBuffer.data))
      ensures St() == SendInLoopStep(old(St()), data, result)
    {
      if state == Disconnected {
        return;
      }
      ghost var out := outputBuffer.Contents();
      var nwrote, faultError := TryWrite(data, result);
      assert outputBuffer.Contents() == out == out + "" && (nwrote == |data| ==> data[nwrote..] == "");
      if !faultError && nwrote < |data| {
        outputBuffer.Append(data[nwrote..]);
        if !isWriting {
          isWriting := true;
        }
      }
    }

    /** The direct write, if nothing is waiting in front of it. */
    method TryWrite(data: string, result: WriteResult) returns (nwrote: nat, faultError: bool)
      requires Valid() && Takes(result, |data|)
      modifies this`wire
      ensures nwrote == if WritesDirectly(old(St())) && result.Wrote? then result.n else 0
      ensures faultError <==> WritesDirectly(old(St())) && IsFault(result)
      ensures wire == old(wire) + data[..nwrote]
    {
      nwrote, faultError := 0, false;
      if !isWriting && outputBuffer.ReadableBytes() == 0 {
        match result {
          case Wrote(n) => nwrote := n;
          case Failed(err) =>
            if err != WouldBlock && (err == BrokenPipe || err == ConnectionReset) {
              faultError := true;
            }
        }
      }
      wire := wire + data[..nwrote];
    }

    method HandleWrite(result: WriteResult)
      requires Valid() && !removed && Takes(result, |outputBuffer.Contents()|)
      modifies this, outputBuffer
      ensures Valid() && St() == Apply(old(St()), Writable(result))
    {
      if isWriting && result.Wrote? && result.n > 0 {
        wire := wire + outputBuffer.Peek()[..result.n];
        outputBuffer.Retrieve(result.n);
        if outputBuffer.ReadableBytes() == 0 {
          isWriting := false;
          if state == Disconnecting {
            DoShutdownInLoop();
          }
        }
      }
    }

    method HandleClose()
      requires Valid() && !removed && !state.Connecting?
      modifies this
      ensures Valid() && !isReading && St() == Apply(old(St()), Close)
    {
      state := Disconnected;
      isReading, isWriting := false, false;
    }

    method ConnectDestroyed()
      requires Valid() && !removed && !state.Connecting?
      modifies this
      ensures Valid() && St() == Apply(old(St()), Destroyed)
    {
      if state == Connected {
        state := Disconnected;
        isReading, isWriting := false, false;
      }
      removed := true;
    }

    /** `shutdown` on the loop's thread. */
    method RequestShutdown()
      requires Valid()
      modifies this
      ensures Valid() && St() == Apply(old(St()), Shutdown)
    {
      if state == Connected {
        state := Disconnecting;
        DoShutdownInLoop();
      }
    }

    /** `shutdown` on another thread: the test of the state, ... */
    method TestConnected() returns (connected: bool)
      requires Valid()
      modifies this`asking
      ensures Valid() && connected == (state == Connected)
      ensures St() == if connected then Apply(old(St()), OtherTest) else old(St())
    {
      connected := state == Connected;
      if connected {
        asking := asking + 1;
      }
    }

    /** ... its change, with the functor that is queued, ... */
    method SetDisconnecting()
      requires Valid() && asking > 0
      modifies this`state, this`asking, this`owed
      ensures Valid() && St() == Apply(old(St()), OtherSet)
    {
      state := Disconnecting;
      asking, owed := asking - 1, owed + 1;
    }

    /** ... and the functor. */
    method RunShutdownFunctor()
      requires Valid() && owed > 0
      modifies this`owed, this`shutdowns
      ensures Valid() && St() == Apply(old(St()), RunShutdown)
    {
      owed := owed - 1;
      DoShutdownInLoop();
    }

    method DoShutdownInLoop()
      requires Valid()
      modifies this`shutdowns
      ensures Valid() && St() == ShutdownInLoop(old(St()))
    {
      if !isWriting {
        shutdowns := shutdowns + 1;
      }
    }
  }
}
