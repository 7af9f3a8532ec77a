/**
 The byte buffer of the network layer: an array with a read and a write index that is
 compacted or grown on demand.
 */
module Buffers {
  import opened Arithmetic
  import opened Text

  const CHEAP_PREPEND: nat := 8
  const INITIAL_SIZE: nat := 1024
  const EXTRA_BUFFER_SIZE: nat := 65536

  /** What `readv` returns: the bytes that were available, or an error. */
  datatype ReadResult = Received(bytes: string) | ReadError(errno: int)

  /** The operations that change the queue, as a client or the poller uses them. To receive
      means to call `readFd` while `bytes` are available; the call may also fail. */
  datatype Op = Put(bytes: string) | Receive(bytes: string) | ReceiveFails(errno: int) | Take(n: nat)

  function ActOn(q: string, op: Op): string {
    match op
    case Put(bytes) => q + bytes
    case Receive(bytes) => q + bytes
    case ReceiveFails(_) => q
    case Take(n) => if n < |q| then q[n..] else ""
  }

  /** The queue of bytes that the operations act on. */
  function QueueAfter(q: string, ops: seq<Op>): string {
    if ops == [] then q else ActOn(QueueAfter(q, ops[..|ops| - 1]), ops[|ops| - 1])
  }

  /** What an operation came to: a read may stop at the end of the overflow buffer, so it takes
      all that is available, or a beginning of it of at least that size. */
  predicate CameTo(op: Op, done: Op) {
    if op.Receive? then
      done.Receive? && done.bytes <= op.bytes && (done.bytes == op.bytes || |done.bytes| >= EXTRA_BUFFER_SIZE)
    else done == op
  }

  predicate AllCameTo(ops: seq<Op>, done: seq<Op>) {
    |done| == |ops| && forall i :: 0 <= i < |ops| ==> CameTo(ops[i], done[i])
  }

  /** The longest that the queue ever was. */
  function PeakAfter(q: string, ops: seq<Op>): nat {
    if ops == [] then |q| else Max(PeakAfter(q, ops[..|ops| - 1]), |QueueAfter(q, ops)|)
  }

  lemma Rejoin(q: string, s: string, n: nat)
    requires n <= |s|
    ensures q + s[..n] + s[n..] == q + s
  {
  }

  lemma SameSlice(longer: string, s: string, lo: nat, hi: nat)
    requires lo <= hi <= |s| <= |longer| && longer[..|s|] == s
    ensures longer[lo..hi] == s[lo..hi]
  {
    forall k | lo <= k < hi ensures longer[k] == s[k] { assert longer[..|s|][k] == longer[k]; }
  }

  class Buffer {
    var data: array<char>
    var readerIndex: nat
    var writeIndex: nat
    ghost const initialSize: nat
    /** The largest number of readable bytes so far. */
    ghost var peak: nat

    ghost predicate Valid() reads this {
      && CHEAP_PREPEND <= readerIndex <= writeIndex <= data.Length
      && writeIndex - readerIndex <= peak
      && data.Length <= Max(CHEAP_PREPEND + initialSize, 2 * peak + 7)
    }

    /** The queue of bytes that the buffer stands for. */
    ghost function Contents(): string
      requires Valid()
      reads this, data
    {
      data[readerIndex..writeIndex]
    }

    constructor (initialSize: nat := INITIAL_SIZE)
      ensures Valid() && Contents() == "" && fresh(data) && this.initialSize == initialSize && peak == 0
    {
      data := new char[CHEAP_PREPEND + initialSize](_ => '\0');
      readerIndex, writeIndex := CHEAP_PREPEND, CHEAP_PREPEND;
      this.initialSize, peak := initialSize, 0;
    }

    function ReadableBytes(): (n: nat)
      requires Valid()
      reads this, data
      ensures n == |Contents()|
    {
      writeIndex - readerIndex
    }

    function WriteableBytes(): nat
      requires Valid()
      reads this
    {
      data.Length - writeIndex
    }

    /** The readable bytes, as a pointer and a length give access to them. */
    function Peek(): (s: string)
      requires Valid()
      reads this, data
      ensures s == Contents()
    {
      data[readerIndex..writeIndex]
    }

    method RetrieveAll()
      requires Valid()
      modifies this`readerIndex, this`writeIndex
      ensures Valid() && Contents() == ""
    {
      readerIndex, writeIndex := CHEAP_PREPEND, CHEAP_PREPEND;
    }

    method Retrieve(len: nat)
      requires Valid()
      modifies this`readerIndex, this`writeIndex
      ensures Valid() && Contents() == if len < |old(Contents())| then old(Contents())[len..] else ""
    {
      if len < ReadableBytes() {
        readerIndex := readerIndex + len;
      } else {
        RetrieveAll();
      }
    }

    method RetrieveAsString(len: nat) returns (s: string)
      requires Valid() && len <= |Contents()|
      modifies this`readerIndex, this`writeIndex
      ensures Valid() && s == old(Contents())[..len] && Contents() == old(Contents())[len..]
    {
      s := data[readerIndex..readerIndex + len];
      Retrieve(len);
    }

    /** Makes room for `len` bytes; the queue does not change. Moving the bytes to the front
        happens only if they are not there already, so copying forwards is sound although
        the two ranges may overlap. */
    method MakeSpace(len: nat)
      requires Valid() && WriteableBytes() < len && |Contents()| + len <= peak
      modifies this, data
      ensures Valid() && len <= WriteableBytes() && Contents() == old(Contents())
      ensures peak == old(peak) && (fresh(data) || data == old(data))
    {
      if WriteableBytes() + readerIndex < len + CHEAP_PREPEND {
        ghost var was := data[..];
        Resize(writeIndex + len);
        SameSlice(data[..], was, readerIndex, writeIndex);
      } else {
        assert readerIndex > CHEAP_PREPEND;
        var readable := ReadableBytes();
        MoveToFront();
        readerIndex := CHEAP_PREPEND;
        writeIndex := readerIndex + readable;
      }
    }

    /** `std::copy` of the readable bytes to the front, byte by byte upwards. */
    method MoveToFront()
      requires CHEAP_PREPEND < readerIndex <= writeIndex <= data.Length
      modifies data
      ensures data[CHEAP_PREPEND..CHEAP_PREPEND + writeIndex - readerIndex] == old(data[readerIndex..writeIndex])
    {
      ghost var was := data[readerIndex..writeIndex];
      for i := 0 to writeIndex - readerIndex
        invariant forall k :: 0 <= k < i ==> data[CHEAP_PREPEND + k] == was[k]
        invariant forall k :: i <= k < |was| ==> data[readerIndex + k] == was[k]
      {
        data[CHEAP_PREPEND + i] := data[readerIndex + i];
      }
    }

    /** `vector::resize` to a larger size. */
    method Resize(size: nat)
      requires data.Length < size
      modifies this`data
      ensures fresh(data) && data.Length == size
      ensures data[..old(data.Length)] == old(data[..])
    {
      var larger := new char[size](_ => '\0');
      for i := 0 to data.Length
        invariant data == old(data) && larger != data && larger[..i] == data[..i]
      {
        larger[i] := data[i];
      }
      data := larger;
    }

    /** Stores `s` from position `at` on. */
    method CopyIn(at: nat, s: string)
      requires at + |s| <= data.Length
      modifies data
      ensures data[..at] == old(data[..at]) && data[at..at + |s|] == s
    {
      for i := 0 to |s|
        invariant data[..at] == old(data[..at])
        invariant forall k :: 0 <= k < i ==> data[at + k] == s[k]
      {
        data[at + i] := s[i];
      }
    }

    method EnsureWriteableBytes(len: nat)
      requires Valid() && |Contents()| + len <= peak
      modifies this, data
      ensures Valid() && len <= WriteableBytes() && Contents() == old(Contents())
      ensures peak == old(peak) && (fresh(data) || data == old(data))
    {
      if WriteableBytes() < len {
        MakeSpace(len);
      }
    }

    method Append(s: string)
      requires Valid()
      modifies this, data
      ensures Valid() && Contents() == old(Contents()) + s
      ensures peak == Max(old(peak), |Contents()|) && (fresh(data) || data == old(data))
    {
      peak := Max(peak, |Contents()| + |s|);
      EnsureWriteableBytes(|s|);
      CopyInKeepsContents(s);
      writeIndex := writeIndex + |s|;
    }

    method CopyInKeepsContents(s: string)
      requires Valid() && |s| <= WriteableBytes()
      modifies data
      ensures Valid() && data[readerIndex..writeIndex + |s|] == old(Contents()) + s
    {
      CopyIn(writeIndex, s);
      assert data[..writeIndex][readerIndex..] == old(data[..writeIndex][readerIndex..]);
    }

    /** `readFd`: a scatter read into the free space and an overflow buffer. `result` is what
        the kernel delivers; it never delivers more than the two areas hold. */
    method ReadFd(result: ReadResult) returns (n: int)
      requires Valid()
      requires result.Received? ==> |result.bytes| <= Room()
      modifies this, data
      ensures Valid() && (fresh(data) || data == old(data))
      ensures n == if result.Received? then |result.bytes| else -1
      ensures Contents() == old(Contents()) + if result.Received? then result.bytes else ""
      ensures peak == Max(old(peak), |Contents()|)
    {
      if result.ReadError? {
        return -1;
      }
      var writeable := WriteableBytes();
      n := |result.bytes|;
      var direct := if n <= writeable then n else writeable;
      CopyInKeepsContents(result.bytes[..direct]);
      peak := Max(peak, ReadableBytes() + n);
      if n <= writeable {
        writeIndex := writeIndex + n;
      } else {
        writeIndex := data.Length;
        assert Contents() == old(Contents()) + result.bytes[..writeable];
        Append(result.bytes[writeable..]);
        Rejoin(old(Contents()), result.bytes, writeable);
      }
    }

    /** `findCRLF`: the offset of the first CR LF in the readable bytes, or their number. */
    method FindCRLF() returns (i: nat)
      requires Valid()
      ensures i == FindCrlf(Contents())
    {
      i := 0;
      while
        && i < ReadableBytes()
        && !(i + 1 < ReadableBytes() && data[readerIndex + i] == '\r' && data[readerIndex + i + 1] == '\n')
        invariant i <= ReadableBytes()
        invariant forall j :: 0 <= j < i ==> !CrlfAt(Contents(), j)
      {
        assert !CrlfAt(Contents(), i);
        i := i + 1;
      }
      FindCrlfIff(Contents(), i);
    }

    /** `findEOL`: the offset of the first line feed, or the number of readable bytes. */
    method FindEOL() returns (i: nat)
      requires Valid()
      ensures i == Find(Contents(), '\n')
    {
      i := 0;
      while i < ReadableBytes() && data[readerIndex + i] != '\n'
        invariant i <= ReadableBytes()
        invariant '\n' !in Contents()[..i]
      {
        assert Contents()[..i + 1] == Contents()[..i] + [Contents()[i]];
        i := i + 1;
      }
      FindIff(Contents(), '\n', i);
    }

    /** The room that `readv` is given: the free space, and the overflow buffer unless the free
        space is as large. */
    function Room(): nat
      requires Valid()
      reads this
    {
      WriteableBytes() + if WriteableBytes() < EXTRA_BUFFER_SIZE then EXTRA_BUFFER_SIZE else 0
    }

    /** Any sequence of operations acts on the array as what it came to acts on the queue, and
        the array never grows beyond twice the longest queue. */
    method Perform(ops: seq<Op>) returns (ghost done: seq<Op>)
      requires Valid()
      modifies this, data
      ensures Valid() && AllCameTo(ops, done) && Contents() == QueueAfter(old(Contents()), done)
      ensures peak == Max(old(peak), PeakAfter(old(Contents()), done))
      ensures data.Length <= Max(CHEAP_PREPEND + initialSize, 2 * peak + 7)
    {
      ghost var q := Contents();
      done := [];
      for i := 0 to |ops|
        invariant Valid() && (fresh(data) || data == old(data))
        invariant AllCameTo(ops[..i], done)
        invariant Contents() == QueueAfter(q, done) && peak == Max(old(peak), PeakAfter(q, done))
      {
        ghost var came := PerformOne(ops[i]);
        assert (done + [came])[..i] == done;
        done := done + [came];
      }
      assert ops[..|ops|] == ops;
    }

    method PerformOne(op: Op) returns (ghost came: Op)
      requires Valid()
      modifies this, data
      ensures Valid() && (fresh(data) || data == old(data))
      ensures CameTo(op, came)
      ensures Contents() == ActOn(old(Contents()), came) && peak == Max(old(peak), |Contents()|)
    {
      came := op;
      match op
      case Put(bytes) => Append(bytes);
      case Receive(bytes) =>
        var delivered := if |bytes| <= Room() then bytes else bytes[..Room()];
        came := Receive(delivered);
        var _ := ReadFd(Received(delivered));
      case ReceiveFails(errno) => var _ := ReadFd(ReadError(errno));
      case Take(n) => Retrieve(n);
    }
  }
}
