/**
 The epoll poller and its channels: the index kept in a channel says what the kernel knows
 about its descriptor. A descriptor is registered with a mask and a pointer to its channel.
 */
module Pollers {

  const EPOLLIN: bv32 := 1
  const EPOLLPRI: bv32 := 2
  const EPOLLOUT: bv32 := 4
  const EPOLLERR: bv32 := 8
  const EPOLLHUP: bv32 := 16

  const NONE_EVENT: bv32 := 0
  /** A logical or, not a bitwise one: urgent data alone are never asked for. */
  const READ_EVENT: bv32 := if EPOLLIN != 0 || EPOLLPRI != 0 then 1 else 0
  const WRITE_EVENT: bv32 := EPOLLOUT

  datatype Index = New | Added | Deleted

  datatype Change = EnableReading | DisableReading | EnableWriting | DisableWriting | DisableAll

  datatype Op = Add | Mod | Del

  datatype Chan = Chan(fd: int, events: bv32, revents: bv32, index: Index)

  /** A descriptor the kernel reports, and what happened to it. */
  datatype Ready = Ready(fd: int, revents: bv32)

  datatype Registration = Registration(mask: bv32, channel: Channel)

  /** `chans`: the channels alive; `channels`: the poller's map; `kernel`: the interest set;
      `failed`: an `epoll_ctl` was refused. */
  datatype Poll = Poll(
    chans: map<Channel, Chan>, channels: map<int, Channel>, kernel: map<int, Registration>, failed: bool)

  function Init(): Poll { Poll(map[], map[], map[], false) }

  function Masked(events: bv32, change: Change): bv32 {
    match change
    case EnableReading => events | READ_EVENT
    case DisableReading => events & !READ_EVENT
    case EnableWriting => events | WRITE_EVENT
    case DisableWriting => events & !WRITE_EVENT
    case DisableAll => NONE_EVENT
  }

  predicate IsReading(events: bv32) { events & READ_EVENT != 0 }

  predicate IsWriting(events: bv32) { events & WRITE_EVENT != 0 }

  predicate KnownBits(events: bv32) { events & !(READ_EVENT | WRITE_EVENT) == 0 }

  /** The kernel refuses to add what is there, and to change or delete what is not. */
  function Ctl(s: Poll, op: Op, c: Channel): Poll
    requires c in s.chans
  {
    var ch := s.chans[c];
    if op.Add? <==> ch.fd in s.kernel then s.(failed := true)
    else if op.Del? then s.(kernel := s.kernel - {ch.fd})
    else s.(kernel := s.kernel[ch.fd := Registration(ch.events, c)])
  }

  function SetIndex(s: Poll, c: Channel, index: Index): Poll
    requires c in s.chans
  {
    s.(chans := s.chans[c := s.chans[c].(index := index)])
  }

  function UpdateStep(s: Poll, c: Channel): Poll
    requires c in s.chans
  {
    var ch := s.chans[c];
    if !ch.index.Added? then
      var r := if ch.index.New? then s.(channels := s.channels[ch.fd := c]) else s;
      Ctl(SetIndex(r, c, Added), Add, c)
    else if ch.events == NONE_EVENT then SetIndex(Ctl(s, Del, c), c, Deleted)
    else Ctl(s, Mod, c)
  }

  function RemoveStep(s: Poll, c: Channel): Poll
    requires c in s.chans
  {
    var ch, r := s.chans[c], s.(channels := s.channels - {s.chans[c].fd});
    SetIndex(if ch.index.Added? then Ctl(r, Del, c) else r, c, New)
  }

  function ChangeStep(s: Poll, c: Channel, change: Change): Poll
    requires c in s.chans
  {
    UpdateStep(s.(chans := s.chans[c := s.chans[c].(events := Masked(s.chans[c].events, change))]), c)
  }

  datatype Event =
    | Create(channel: Channel, fd: int)
    | Changes(channel: Channel, change: Change)
    | Remove(channel: Channel)
    | Destroy(channel: Channel)
    | Wait(ready: seq<Ready>)

  predicate AllWatched(s: Poll, ready: seq<Ready>) {
    forall i :: 0 <= i < |ready| ==> ready[i].fd in s.kernel
  }

  /** `fillActivateChannels`: the channels the kernel's pointers lead to ... */
  function Active(s: Poll, ready: seq<Ready>): seq<Channel>
    requires AllWatched(s, ready)
  {
    seq(|ready|, i requires 0 <= i < |ready| => s.kernel[ready[i].fd].channel)
  }

  /** What the kernel writes for a descriptor: the event and the pointer. */
  datatype Report = Report(channel: Channel, revents: bv32)

  predicate IsReportOf(s: Poll, reports: seq<Report>, ready: seq<Ready>)
    requires AllWatched(s, ready)
  {
    && |reports| == |ready|
    && forall i :: 0 <= i < |ready| ==> reports[i] == Report(s.kernel[ready[i].fd].channel, ready[i].revents)
  }

  function SetRevents(s: Poll, c: Channel, revents: bv32): Poll {
    if c in s.chans then s.(chans := s.chans[c := s.chans[c].(revents := revents)]) else s
  }

  /** ... each with what happened to it. */
  function WaitStep(s: Poll, ready: seq<Ready>): Poll
    requires AllWatched(s, ready)
  {
    if ready == [] then s else
    var last := ready[|ready| - 1];
    SetRevents(WaitStep(s, ready[..|ready| - 1]), s.kernel[last.fd].channel, last.revents)
  }

  /** A channel is made for a descriptor that no other channel alive has, and destroyed only
      when the poller does not know it. */
  predicate Enabled(s: Poll, e: Event) {
    match e
    case Create(c, fd) => c !in s.chans && forall d :: d in s.chans ==> s.chans[d].fd != fd
    case Changes(c, _) => c in s.chans
    case Remove(c) => c in s.chans
    case Destroy(c) => c in s.chans && s.chans[c].index.New?
    case Wait(ready) => AllWatched(s, ready)
  }

  function Apply(s: Poll, e: Event): Poll
    requires Enabled(s, e)
  {
    match e
    case Create(c, fd) => s.(chans := s.chans[c := Chan(fd, NONE_EVENT, 0, New)])
    case Changes(c, change) => ChangeStep(s, c, change)
    case Remove(c) => RemoveStep(s, c)
    case Destroy(c) => s.(chans := s.chans - {c})
    case Wait(ready) => WaitStep(s, ready)
  }

  // ---------------------------------------------------------------- the index mirrors the kernel

  predicate Distinct(chans: map<Channel, Chan>) {
    forall c, d :: c in chans && d in chans && c != d ==> chans[c].fd != chans[d].fd
  }

  predicate Mirrors(s: Poll, c: Channel)
    requires c in s.chans
  {
    var ch := s.chans[c];
    && (ch.index.Added? <==> ch.fd in s.kernel)
    && (ch.index.Added? ==> s.kernel[ch.fd] == Registration(ch.events, c))
    && (ch.index.New? <==> ch.fd !in s.channels)
    && (!ch.index.New? ==> s.channels[ch.fd] == c)
    && KnownBits(ch.events)
  }

  /** The kernel and the poller point to channels alive that have the descriptor. */
  predicate NoDangling(s: Poll) {
    && (forall fd :: fd in s.channels ==> s.channels[fd] in s.chans && s.chans[s.channels[fd]].fd == fd)
    && (forall fd :: fd in s.kernel ==> s.kernel[fd].channel in s.chans && s.chans[s.kernel[fd].channel].fd == fd)
  }

  predicate Inv(s: Poll) {
    && Distinct(s.chans)
    && (forall c :: c in s.chans ==> Mirrors(s, c))
    && NoDangling(s)
    && !s.failed
  }

  lemma OrKeepsBits(events: bv32)
    requires KnownBits(events)
    ensures KnownBits(events | READ_EVENT) && KnownBits(events | WRITE_EVENT)
  {
  }

  lemma AndKeepsBits(events: bv32)
    requires KnownBits(events)
    ensures KnownBits(events & !READ_EVENT) && KnownBits(events & !WRITE_EVENT)
  {
  }

  lemma MaskKeepsBits(events: bv32, change: Change)
    requires KnownBits(events)
    ensures KnownBits(Masked(events, change))
  {
    match change
    case EnableReading => OrKeepsBits(events);
    case DisableReading => AndKeepsBits(events);
    case EnableWriting => OrKeepsBits(events);
    case DisableWriting => AndKeepsBits(events);
    case DisableAll =>
  }

  /** The five updates do what their names say and leave the other interest alone; and a
      mask is empty exactly when neither interest is in it. */
  lemma MaskMeans(events: bv32, change: Change)
    requires KnownBits(events)
    ensures var r := Masked(events, change);
      && (IsReading(r) <==>
            change.EnableReading? || (IsReading(events) && !change.DisableReading? && !change.DisableAll?))
      && (IsWriting(r) <==>
            change.EnableWriting? || (IsWriting(events) && !change.DisableWriting? && !change.DisableAll?))
      && (r == NONE_EVENT <==> !IsReading(r) && !IsWriting(r))
  {
  }

  predicate SameBut<V(==)>(m: map<int, V>, n: map<int, V>, fd: int) {
    m - {fd} == n - {fd}
  }

  lemma ElsewhereSame<V>(m: map<int, V>, n: map<int, V>, fd: int, k: int)
    requires SameBut(m, n, fd) && k != fd
    ensures (k in m <==> k in n) && (k in m ==> m[k] == n[k])
  {
    assert k in m <==> k in m - {fd};
    assert k in n <==> k in n - {fd};
    if k in m { assert (m - {fd})[k] == m[k] && (n - {fd})[k] == n[k]; }
  }

  lemma SetOrDrop<V>(m: map<int, V>, fd: int, v: V)
    ensures SameBut(m, m, fd) && SameBut(m, m[fd := v], fd) && SameBut(m, m - {fd}, fd)
  {
  }

  /** A step that touches one channel, and the maps at its descriptor only. */
  predicate Touches(s: Poll, r: Poll, c: Channel)
    requires c in s.chans
  {
    && c in r.chans && r.chans[c].fd == s.chans[c].fd
    && r.chans == s.chans[c := r.chans[c]]
    && SameBut(s.channels, r.channels, s.chans[c].fd)
    && SameBut(s.kernel, r.kernel, s.chans[c].fd)
  }

  lemma TouchingOneKeepsInv(s: Poll, r: Poll, c: Channel)
    requires Inv(s) && c in s.chans && Touches(s, r, c)
    requires Mirrors(r, c) && !r.failed
    ensures Inv(r)
  {
    var own := s.chans[c].fd;
    forall d | d in r.chans ensures Mirrors(r, d) {
      if d != c {
        assert Mirrors(s, d);
        ElsewhereSame(s.channels, r.channels, own, s.chans[d].fd);
        ElsewhereSame(s.kernel, r.kernel, own, s.chans[d].fd);
      }
    }
    forall fd | fd in r.channels ensures r.channels[fd] in r.chans && r.chans[r.channels[fd]].fd == fd {
      if fd != own { ElsewhereSame(s.channels, r.channels, own, fd); }
    }
    forall fd | fd in r.kernel ensures r.kernel[fd].channel in r.chans && r.chans[r.kernel[fd].channel].fd == fd {
      if fd != own { ElsewhereSame(s.kernel, r.kernel, own, fd); }
    }
  }

  lemma CtlTouches(s: Poll, op: Op, c: Channel)
    requires c in s.chans
    ensures Touches(s, Ctl(s, op, c), c) && Ctl(s, op, c).chans == s.chans
  {
    SetOrDrop(s.kernel, s.chans[c].fd, Registration(s.chans[c].events, c));
    assert s.chans == s.chans[c := s.chans[c]];
  }

  lemma ThenTouches(s: Poll, r: Poll, t: Poll, c: Channel)
    requires c in s.chans && Touches(s, r, c) && Touches(r, t, c)
    ensures Touches(s, t, c)
  {
  }

  lemma UpdateTouches(s: Poll, c: Channel)
    requires c in s.chans
    ensures Touches(s, UpdateStep(s, c), c)
  {
    var ch := s.chans[c];
    if !ch.index.Added? {
      var r := if ch.index.New? then s.(channels := s.channels[ch.fd := c]) else s;
      SetOrDrop(s.channels, ch.fd, c);
      var t := SetIndex(r, c, Added);
      assert Touches(s, t, c);
      CtlTouches(t, Add, c);
      ThenTouches(s, t, Ctl(t, Add, c), c);
    } else {
      CtlTouches(s, Del, c);
      CtlTouches(s, Mod, c);
    }
  }

  /** What an update needs of a channel whose mask has just changed. */
  predicate Registered(s: Poll, c: Channel)
    requires c in s.chans
  {
    var ch := s.chans[c];
    && (ch.index.Added? <==> ch.fd in s.kernel)
    && (ch.index.New? <==> ch.fd !in s.channels)
    && (!ch.index.New? ==> s.channels[ch.fd] == c)
    && KnownBits(ch.events)
  }

  lemma UpdateMirrors(s: Poll, c: Channel)
    requires c in s.chans && Registered(s, c) && !s.failed
    ensures Mirrors(UpdateStep(s, c), c) && !UpdateStep(s, c).failed
  {
  }

  lemma ChangeKeepsInv(s: Poll, c: Channel, change: Change)
    requires Inv(s) && c in s.chans
    ensures Inv(ChangeStep(s, c, change))
  {
    var t := s.(chans := s.chans[c := s.chans[c].(events := Masked(s.chans[c].events, change))]);
    MaskKeepsBits(s.chans[c].events, change);
    assert Mirrors(s, c);
    UpdateTouches(t, c);
    UpdateMirrors(t, c);
    ThenTouches(s, t, UpdateStep(t, c), c);
    TouchingOneKeepsInv(s, UpdateStep(t, c), c);
  }

  lemma RemoveKeepsInv(s: Poll, c: Channel)
    requires Inv(s) && c in s.chans
    ensures Inv(RemoveStep(s, c))
  {
    var fd := s.chans[c].fd;
    assert Mirrors(s, c);
    SetOrDrop(s.channels, fd, c);
    SetOrDrop(s.kernel, fd, Registration(s.chans[c].events, c));
    TouchingOneKeepsInv(s, RemoveStep(s, c), c);
  }

  lemma ReventsKeepInv(s: Poll, c: Channel, revents: bv32)
    requires Inv(s) && c in s.chans
    ensures var r := SetRevents(s, c, revents); Inv(r) && r.kernel == s.kernel && r.chans.Keys == s.chans.Keys
  {
    assert Mirrors(s, c);
    TouchingOneKeepsInv(s, SetRevents(s, c, revents), c);
  }

  lemma {:induction false} WaitKeepsInv(s: Poll, ready: seq<Ready>)
    requires Inv(s) && AllWatched(s, ready)
    ensures var r := WaitStep(s, ready); Inv(r) && r.kernel == s.kernel && r.chans.Keys == s.chans.Keys
  {
    if ready != [] {
      WaitKeepsInv(s, ready[..|ready| - 1]);
      var last, r := ready[|ready| - 1], WaitStep(s, ready[..|ready| - 1]);
      ReventsKeepInv(r, s.kernel[last.fd].channel, last.revents);
    }
  }

  lemma StepKeepsInv(s: Poll, e: Event)
    requires Inv(s) && Enabled(s, e)
    ensures Inv(Apply(s, e))
  {
    match e
    case Create(c, fd) => CreateKeepsInv(s, c, fd);
    case Changes(c, change) => ChangeKeepsInv(s, c, change);
    case Remove(c) => RemoveKeepsInv(s, c);
    case Destroy(c) => DestroyKeepsInv(s, c);
    case Wait(ready) => WaitKeepsInv(s, ready);
  }

  lemma CreateKeepsInv(s: Poll, c: Channel, fd: int)
    requires Inv(s) && Enabled(s, Create(c, fd))
    ensures Inv(Apply(s, Create(c, fd)))
  {
    var r := Apply(s, Create(c, fd));
    forall d | d in s.chans ensures Mirrors(r, d) {
      assert Mirrors(s, d);
    }
  }

  lemma DestroyKeepsInv(s: Poll, c: Channel)
    requires Inv(s) && Enabled(s, Destroy(c))
    ensures Inv(Apply(s, Destroy(c)))
  {
    var r := Apply(s, Destroy(c));
    assert Mirrors(s, c);
    forall d | d in r.chans ensures Mirrors(r, d) {
      assert Mirrors(s, d);
    }
  }

  // ---------------------------------------------------------------- whole runs

  ghost predicate Legal(s0: Poll, es: seq<Event>)
    requires Inv(s0)
    decreases |es|, 0
  {
    es == [] || (Legal(s0, es[..|es| - 1]) && Enabled(Exec(s0, es[..|es| - 1]), es[|es| - 1]))
  }

  ghost function Exec(s0: Poll, es: seq<Event>): (s: Poll)
    requires Inv(s0) && Legal(s0, es)
    ensures Inv(s)
    decreases |es|, 1
  {
    if es == [] then s0 else
    var p := Exec(s0, es[..|es| - 1]);
    StepKeepsInv(p, es[|es| - 1]);
    Apply(p, es[|es| - 1])
  }

  /** After any run the index of a channel says whether the kernel watches its descriptor,
      with its mask and its address, and whether the poller lists it; and the kernel has
      refused nothing. Removing a channel that was never registered does no harm. */
  lemma IndexMirrorsKernel(es: seq<Event>, c: Channel)
    requires Inv(Init()) && Legal(Init(), es) && c in Exec(Init(), es).chans
    ensures var s := Exec(Init(), es); var ch := s.chans[c];
      && (ch.index.Added? <==> ch.fd in s.kernel && s.kernel[ch.fd] == Registration(ch.events, c))
      && (ch.index.Added? <==> ch.fd in s.kernel)
      && (!ch.index.New? <==> ch.fd in s.channels && s.channels[ch.fd] == c)
      && !s.failed
  {
    assert Mirrors(Exec(Init(), es), c);
  }

  /** What a wait returns is alive, and the kernel was asked about it. */
  lemma ActiveAreAlive(s: Poll, ready: seq<Ready>, i: nat)
    requires Inv(s) && AllWatched(s, ready) && i < |ready|
    ensures var c := Active(s, ready)[i];
      c in s.chans && s.chans[c].fd == ready[i].fd && s.chans[c].index.Added? && c in WaitStep(s, ready).chans
  {
    WaitKeepsInv(s, ready);
    assert Mirrors(s, Active(s, ready)[i]);
  }

  /** A channel with no interest left is not watched, once it has been updated while it was;
      and it is watched with an empty mask when it was not. */
  lemma WatchedAfterChangeIff(s: Poll, c: Channel, change: Change)
    requires Inv(s) && c in s.chans
    ensures var r := ChangeStep(s, c, change);
      s.chans[c].fd in r.kernel <==> !s.chans[c].index.Added? || r.chans[c].events != NONE_EVENT
  {
    ChangeKeepsInv(s, c, change);
    assert Mirrors(ChangeStep(s, c, change), c);
  }

  // ---------------------------------------------------------------- what is asked and what is reported

  /** The kernel reports a descriptor once in a wait. */
  predicate ReportedOnce(ready: seq<Ready>) {
    forall i, j :: 0 <= i < j < |ready| ==> ready[i].fd != ready[j].fd
  }

  predicate IsReported(ready: seq<Ready>, fd: int) {
    exists i :: 0 <= i < |ready| && ready[i].fd == fd
  }

  /** A wait leaves in each channel what the kernel has reported for its descriptor, in the
      channels of other descriptors what was there, and nothing else changes. */
  lemma ReportsAreStored(s: Poll, ready: seq<Ready>)
    requires Inv(s) && AllWatched(s, ready) && ReportedOnce(ready)
    ensures var r := Apply(s, Wait(ready));
      && r.chans.Keys == s.chans.Keys && r.channels == s.channels && r.kernel == s.kernel
      && (forall c, i :: c in s.chans && 0 <= i < |ready| && ready[i].fd == s.chans[c].fd ==>
            r.chans[c] == s.chans[c].(revents := ready[i].revents))
      && (forall c :: c in s.chans && !IsReported(ready, s.chans[c].fd) ==> r.chans[c] == s.chans[c])
  {
    WaitKeepsInv(s, ready);
    WaitKeepsChannels(s, ready);
    forall c, i | c in s.chans && 0 <= i < |ready| && ready[i].fd == s.chans[c].fd
      ensures WaitStep(s, ready).chans[c] == s.chans[c].(revents := ready[i].revents)
    {
      ReportIsStored(s, ready, c, i);
    }
    forall c | c in s.chans && !IsReported(ready, s.chans[c].fd)
      ensures WaitStep(s, ready).chans[c] == s.chans[c]
    {
      UnreportedIsKept(s, ready, c);
    }
  }

  lemma {:induction false} WaitKeepsChannels(s: Poll, ready: seq<Ready>)
    requires AllWatched(s, ready)
    ensures WaitStep(s, ready).channels == s.channels
  {
    if ready != [] { WaitKeepsChannels(s, ready[..|ready| - 1]); }
  }

  lemma {:induction false} UnreportedIsKept(s: Poll, ready: seq<Ready>, c: Channel)
    requires Inv(s) && AllWatched(s, ready) && c in s.chans
    requires forall i :: 0 <= i < |ready| ==> ready[i].fd != s.chans[c].fd
    ensures c in WaitStep(s, ready).chans && WaitStep(s, ready).chans[c] == s.chans[c]
  {
    if ready != [] {
      UnreportedIsKept(s, ready[..|ready| - 1], c);
      assert s.chans[s.kernel[ready[|ready| - 1].fd].channel].fd == ready[|ready| - 1].fd;
    }
  }

  /** The pointer that the kernel returns for a descriptor leads to the channel that has it. */
  lemma PointerLeadsBack(s: Poll, c: Channel)
    requires Inv(s) && c in s.chans && s.chans[c].fd in s.kernel
    ensures s.kernel[s.chans[c].fd].channel == c
  {
    assert Mirrors(s, c);
  }

  lemma {:induction false} ReportIsStored(s: Poll, ready: seq<Ready>, c: Channel, i: nat)
    requires Inv(s) && AllWatched(s, ready) && ReportedOnce(ready)
    requires c in s.chans && i < |ready| && ready[i].fd == s.chans[c].fd
    ensures c in WaitStep(s, ready).chans
    ensures WaitStep(s, ready).chans[c] == s.chans[c].(revents := ready[i].revents)
  {
    var n := |ready| - 1;
    if i == n {
      UnreportedIsKept(s, ready[..n], c);
      PointerLeadsBack(s, c);
    } else {
      ReportIsStored(s, ready[..n], c, i);
      assert s.chans[s.kernel[ready[n].fd].channel].fd == ready[n].fd;
    }
  }

  lemma CtlLeavesChannels(s: Poll, op: Op, c: Channel)
    requires c in s.chans
    ensures Ctl(s, op, c).chans == s.chans && Ctl(s, op, c).channels == s.channels
  {
  }

  lemma UpdateLeavesMask(s: Poll, c: Channel)
    requires c in s.chans
    ensures var r := UpdateStep(s, c); c in r.chans && r.chans[c] == s.chans[c].(index := r.chans[c].index)
  {
    var ch := s.chans[c];
    if !ch.index.Added? {
      var r := if ch.index.New? then s.(channels := s.channels[ch.fd := c]) else s;
      CtlLeavesChannels(SetIndex(r, c, Added), Add, c);
    } else {
      CtlLeavesChannels(s, Del, c);
      CtlLeavesChannels(s, Mod, c);
    }
  }

  lemma UpdateListsChannel(s: Poll, c: Channel)
    requires c in s.chans && Registered(s, c)
    ensures UpdateStep(s, c).channels == s.channels[s.chans[c].fd := c]
  {
    var ch := s.chans[c];
    if !ch.index.Added? {
      var r := if ch.index.New? then s.(channels := s.channels[ch.fd := c]) else s;
      CtlLeavesChannels(SetIndex(r, c, Added), Add, c);
    } else {
      CtlLeavesChannels(s, Del, c);
      CtlLeavesChannels(s, Mod, c);
    }
  }

  lemma UpdateIsLocal(s: Poll, c: Channel)
    requires c in s.chans && Registered(s, c)
    ensures var r, ch := UpdateStep(s, c), s.chans[c];
      && c in r.chans && r.chans[c] == ch.(index := r.chans[c].index) && r.chans == s.chans[c := r.chans[c]]
      && r.channels == s.channels[ch.fd := c] && SameBut(s.kernel, r.kernel, ch.fd)
  {
    UpdateLeavesMask(s, c);
    UpdateListsChannel(s, c);
    UpdateTouches(s, c);
  }

  lemma MaskedIsRegistered(s: Poll, c: Channel, change: Change)
    requires Inv(s) && c in s.chans
    ensures Registered(s.(chans := s.chans[c := s.chans[c].(events := Masked(s.chans[c].events, change))]), c)
  {
    assert Mirrors(s, c);
    MaskKeepsBits(s.chans[c].events, change);
  }

  /** An update changes the mask of its channel and perhaps its index, and nothing else of any
      channel; the poller lists the channel, and no other descriptor is touched. */
  lemma ChangeIsLocal(s: Poll, c: Channel, change: Change)
    requires Inv(s) && c in s.chans
    ensures var r, ch := Apply(s, Changes(c, change)), s.chans[c];
      && c in r.chans && r.chans[c] == ch.(events := Masked(ch.events, change), index := r.chans[c].index)
      && r.chans == s.chans[c := r.chans[c]]
      && r.channels == s.channels[ch.fd := c] && SameBut(s.kernel, r.kernel, ch.fd)
  {
    MaskedIsRegistered(s, c, change);
    UpdateIsLocal(s.(chans := s.chans[c := s.chans[c].(events := Masked(s.chans[c].events, change))]), c);
  }

  /** A removed channel is in neither the kernel nor the list, keeps its mask, and nothing else
      changes. */
  lemma RemoveDecides(s: Poll, c: Channel)
    requires Inv(s) && c in s.chans
    ensures var r, fd := Apply(s, Remove(c)), s.chans[c].fd;
      && r.chans == s.chans[c := s.chans[c].(index := New)]
      && r.channels == s.channels - {fd} && r.kernel == s.kernel - {fd}
  {
    assert Mirrors(s, c);
  }

  /** Whether channel `c` is to read, or to write, after a step. */
  predicate ReadsAfter(e: Event, c: Channel, reading: bool) {
    if e == Changes(c, EnableReading) then true
    else if e == Changes(c, DisableReading) || e == Changes(c, DisableAll) || (e.Create? && e.channel == c) then false
    else reading
  }

  predicate WritesAfter(e: Event, c: Channel, writing: bool) {
    if e == Changes(c, EnableWriting) then true
    else if e == Changes(c, DisableWriting) || e == Changes(c, DisableAll) || (e.Create? && e.channel == c) then false
    else writing
  }

  /** What has been asked of channel `c` last, since it was made. */
  predicate AskedToRead(es: seq<Event>, c: Channel) {
    es != [] && ReadsAfter(es[|es| - 1], c, AskedToRead(es[..|es| - 1], c))
  }

  predicate AskedToWrite(es: seq<Event>, c: Channel) {
    es != [] && WritesAfter(es[|es| - 1], c, AskedToWrite(es[..|es| - 1], c))
  }

  /** The step makes channel `c`, or updates its mask. */
  predicate Concerns(e: Event, c: Channel) {
    (e.Create? || e.Changes?) && e.channel == c
  }

  lemma OtherStepsKeepMask(s: Poll, e: Event, c: Channel)
    requires Inv(s) && Enabled(s, e) && c in Apply(s, e).chans && !Concerns(e, c)
    ensures c in s.chans && Apply(s, e).chans[c].events == s.chans[c].events
  {
    match e
    case Changes(d, change) => ChangeIsLocal(s, d, change);
    case Remove(d) => RemoveDecides(s, d);
    case Wait(ready) => MaskSurvivesWait(s, ready, c);
    case _ =>
  }

  lemma {:induction false} MaskSurvivesWait(s: Poll, ready: seq<Ready>, c: Channel)
    requires Inv(s) && AllWatched(s, ready)
    ensures c in WaitStep(s, ready).chans <==> c in s.chans
    ensures c in s.chans ==> WaitStep(s, ready).chans[c].events == s.chans[c].events
  {
    if ready != [] { MaskSurvivesWait(s, ready[..|ready| - 1], c); }
  }

  function MaskOf(reading: bool, writing: bool): bv32 {
    if reading && writing then EPOLLIN | EPOLLOUT
    else if reading then EPOLLIN
    else if writing then EPOLLOUT
    else 0
  }

  lemma MaskedAgain(reading: bool, writing: bool, change: Change)
    ensures Masked(MaskOf(reading, writing), change) == MaskOf(
      change.EnableReading? || (reading && !change.DisableReading? && !change.DisableAll?),
      change.EnableWriting? || (writing && !change.DisableWriting? && !change.DisableAll?))
  {
    match change
    case EnableReading =>
    case DisableReading => if reading && writing { assert MaskOf(true, true) & !EPOLLIN == EPOLLOUT; }
    case EnableWriting =>
    case DisableWriting => if reading && writing { assert MaskOf(true, true) & !EPOLLOUT == EPOLLIN; }
    case DisableAll =>
  }

  lemma StepOnMask(s: Poll, e: Event, c: Channel, reading: bool, writing: bool)
    requires Inv(s) && Enabled(s, e) && c in Apply(s, e).chans
    requires c in s.chans ==> s.chans[c].events == MaskOf(reading, writing)
    ensures Apply(s, e).chans[c].events == MaskOf(ReadsAfter(e, c, reading), WritesAfter(e, c, writing))
  {
    if !Concerns(e, c) {
      OtherStepsKeepMask(s, e, c);
    } else if e.Changes? {
      ChangeIsLocal(s, c, e.change);
      MaskedAgain(reading, writing, e.change);
    }
  }

  /** After any run, a channel's mask holds what has been asked of it last and nothing else: input,
      if it has been asked to read, and output, if it has been asked to write ... */
  lemma {:induction false} InterestIsLastRequest(es: seq<Event>, c: Channel)
    requires Inv(Init()) && Legal(Init(), es) && c in Exec(Init(), es).chans
    ensures Exec(Init(), es).chans[c].events == MaskOf(AskedToRead(es, c), AskedToWrite(es, c))
  {
    if es != [] {
      var prefix := es[..|es| - 1];
      if c in Exec(Init(), prefix).chans { InterestIsLastRequest(prefix, c); }
      StepOnMask(Exec(Init(), prefix), es[|es| - 1], c, AskedToRead(prefix, c), AskedToWrite(prefix, c));
    }
  }

  /** ... and that is what the kernel watches its descriptor for, with its address, as long as the
      channel is registered. */
  lemma KernelWatchesForLastRequest(es: seq<Event>, c: Channel)
    requires Inv(Init()) && Legal(Init(), es) && c in Exec(Init(), es).chans
    requires Exec(Init(), es).chans[c].fd in Exec(Init(), es).kernel
    ensures var s := Exec(Init(), es);
      s.kernel[s.chans[c].fd] == Registration(MaskOf(AskedToRead(es, c), AskedToWrite(es, c)), c)
  {
    InterestIsLastRequest(es, c);
    assert Mirrors(Exec(Init(), es), c);
  }

  /** What a channel calls when it handles its event. */
  datatype Callback = OnClose | OnError | OnRead | OnWrite

  function CallIf(wanted: bool, callback: Callback, installed: set<Callback>): seq<Callback> {
    if wanted && callback in installed then [callback] else []
  }

  /** `handleEventWithGuard` */
  function Calls(revents: bv32, installed: set<Callback>): seq<Callback> {
    CallIf(revents & EPOLLHUP != 0 && revents & EPOLLIN == 0, OnClose, installed)
    + CallIf(revents & EPOLLERR != 0, OnError, installed)
    + CallIf(revents & (EPOLLIN | EPOLLPRI) != 0, OnRead, installed)
    + CallIf(revents & EPOLLOUT != 0, OnWrite, installed)
  }

  lemma CallsIff(revents: bv32, installed: set<Callback>)
    ensures var called := Calls(revents, installed);
      && (OnRead in called <==> OnRead in installed && revents & 3 != 0)
      && (OnWrite in called <==> OnWrite in installed && revents & 4 != 0)
      && (OnError in called <==> OnError in installed && revents & 8 != 0)
      && (OnClose in called <==> OnClose in installed && revents & 16 != 0 && revents & 1 == 0)
  {
  }

  /** What the kernel reports for a descriptor reaches the callbacks of its channel: input or
      urgent data those for reading, room for output those for writing, an error the one for
      errors, and a hang-up the one for closing unless there is input left. */
  lemma ReportReachesCallbacksIff(s: Poll, ready: seq<Ready>, c: Channel, i: nat, installed: set<Callback>)
    requires Inv(s) && AllWatched(s, ready) && ReportedOnce(ready)
    requires c in s.chans && i < |ready| && ready[i].fd == s.chans[c].fd
    ensures c in Apply(s, Wait(ready)).chans
    ensures var called, bits := Calls(Apply(s, Wait(ready)).chans[c].revents, installed), ready[i].revents;
      && (OnRead in called <==> OnRead in installed && bits & 3 != 0)
      && (OnWrite in called <==> OnWrite in installed && bits & 4 != 0)
      && (OnError in called <==> OnError in installed && bits & 8 != 0)
      && (OnClose in called <==> OnClose in installed && bits & 16 != 0 && bits & 1 == 0)
  {
    ReportIsStored(s, ready, c, i);
    CallsIff(ready[i].revents, installed);
  }

  // ---------------------------------------------------------------- two channels on one descriptor

  function Twin(s: Poll, c: Channel, d: Channel): Poll
    requires c in s.chans
  {
    s.(chans := s.chans[d := Chan(s.chans[c].fd, NONE_EVENT, 0, New)])
  }

  /** A second channel for a descriptor: its first update is refused exactly when the kernel
      watches the first one, ... */
  lemma SecondAddIsRefusedIff(s: Poll, c: Channel, d: Channel, change: Change)
    requires Inv(s) && c in s.chans && d !in s.chans
    ensures ChangeStep(Twin(s, c, d), d, change).failed <==> s.chans[c].index.Added?
  {
    assert Mirrors(s, c);
  }

  /** ... and its removal takes the first one out of the poller's list exactly when it was
      in it. */
  lemma SecondRemoveIsHarmlessIff(s: Poll, c: Channel, d: Channel)
    requires Inv(s) && c in s.chans && d !in s.chans
    ensures Mirrors(RemoveStep(Twin(s, c, d), d), c) <==> s.chans[c].index.New?
  {
    assert Mirrors(s, c);
  }

  /** ... and in any case its first update leaves the first one's index wrong: unknown or
      deleted, the kernel now watches the descriptor; registered, the list leads elsewhere. */
  lemma SecondChannelBreaksIndex(s: Poll, c: Channel, d: Channel, change: Change)
    requires Inv(s) && c in s.chans && d !in s.chans
    ensures !Mirrors(ChangeStep(Twin(s, c, d), d, change), c)
  {
    assert Mirrors(s, c);
  }

  /** So distinct descriptors are the exact condition: a new channel may be used exactly when
      no other channel alive has its descriptor. */
  lemma NewChannelIsHarmlessIff(s: Poll, d: Channel, fd: int, change: Change)
    requires Inv(s) && d !in s.chans
    ensures var r := ChangeStep(s.(chans := s.chans[d := Chan(fd, NONE_EVENT, 0, New)]), d, change);
      (forall c :: c in s.chans ==> Mirrors(r, c)) <==> forall c :: c in s.chans ==> s.chans[c].fd != fd
  {
    var t := s.(chans := s.chans[d := Chan(fd, NONE_EVENT, 0, New)]);
    if c :| c in s.chans && s.chans[c].fd == fd {
      SecondChannelBreaksIndex(s, c, d, change);
      assert t == Twin(s, c, d);
    } else {
      CreateKeepsInv(s, d, fd);
      ChangeKeepsInv(t, d, change);
    }
  }

  // ---------------------------------------------------------------- the classes

  class Channel {
    const fd: int
    var events: bv32
    var revents: bv32
    var index: Index

    ghost function St(): Chan
      reads this
    {
      Chan(fd, events, revents, index)
    }

    constructor (fd: int)
      ensures St() == Chan(fd, NONE_EVENT, 0, New)
    {
      this.fd := fd;
      events, revents, index := NONE_EVENT, 0, New;
    }

    method EnableReading(poller: EpollPoller)
      requires this in poller.alive
      modifies poller, this
      ensures poller.alive == old(poller.alive)
      ensures poller.St() == ChangeStep(old(poller.St()), this, Change.EnableReading)
    {
      SetEvents(poller, Change.EnableReading, events | READ_EVENT);
      poller.UpdateChannel(this);
    }

    method DisableReading(poller: EpollPoller)
      requires this in poller.alive
      modifies poller, this
      ensures poller.alive == old(poller.alive)
      ensures poller.St() == ChangeStep(old(poller.St()), this, Change.DisableReading)
    {
      SetEvents(poller, Change.DisableReading, events & !READ_EVENT);
      poller.UpdateChannel(this);
    }

    method EnableWriting(poller: EpollPoller)
      requires this in poller.alive
      modifies poller, this
      ensures poller.alive == old(poller.alive)
      ensures poller.St() == ChangeStep(old(poller.St()), this, Change.EnableWriting)
    {
      SetEvents(poller, Change.EnableWriting, events | WRITE_EVENT);
      poller.UpdateChannel(this);
    }

    method DisableWriting(poller: EpollPoller)
      requires this in poller.alive
      modifies poller, this
      ensures poller.alive == old(poller.alive)
      ensures poller.St() == ChangeStep(old(poller.St()), this, Change.DisableWriting)
    {
      SetEvents(poller, Change.DisableWriting, events & !WRITE_EVENT);
      poller.UpdateChannel(this);
    }

    method DisableAll(poller: EpollPoller)
      requires this in poller.alive
      modifies poller, this
      ensures poller.alive == old(poller.alive)
      ensures poller.St() == ChangeStep(old(poller.St()), this, Change.DisableAll)
    {
      SetEvents(poller, Change.DisableAll, NONE_EVENT);
      poller.UpdateChannel(this);
    }

    /** `handleEvent`: a channel tied to an owner that is gone calls nothing. */
    method HandleEvent(tied: bool, ownerAlive: bool, installed: set<Callback>) returns (calls: seq<Callback>)
      ensures calls == if tied && !ownerAlive then [] else Calls(revents, installed)
    {
      calls := [];
      if !tied || ownerAlive {
        calls := Call(calls, revents & EPOLLHUP != 0 && revents & EPOLLIN == 0, OnClose, installed);
        calls := Call(calls, revents & EPOLLERR != 0, OnError, installed);
        calls := Call(calls, revents & (EPOLLIN | EPOLLPRI) != 0, OnRead, installed);
        calls := Call(calls, revents & EPOLLOUT != 0, OnWrite, installed);
      }
    }

    /** A callback that has been set is called if it is wanted. */
    method Call(calls: seq<Callback>, wanted: bool, callback: Callback, installed: set<Callback>)
      returns (more: seq<Callback>)
      ensures more == calls + CallIf(wanted, callback, installed)
    {
      more := calls;
      if wanted {
        if callback in installed {
          more := more + [callback];
        }
      }
    }

    /** The new mask, seen from the poller the channel belongs to. */
    method SetEvents(ghost poller: EpollPoller, ghost change: Change, mask: bv32)
      requires this in poller.alive && mask == Masked(events, change)
      modifies this`events
      ensures events == mask
      ensures var s := old(poller.St());
        poller.St() == s.(chans := s.chans[this := s.chans[this].(events := Masked(s.chans[this].events, change))])
    {
      events := mask;
    }
  }

  class EpollPoller {
    var channels: map<int, Channel>
    var eventListSize: nat
    ghost var alive: set<Channel>
    ghost var kernel: map<int, Registration>
    ghost var failed: bool

    ghost function St(): Poll
      reads this, alive
    {
      Poll(map c | c in alive :: c.St(), channels, kernel, failed)
    }

    constructor ()
      ensures St() == Init()
    {
      channels, eventListSize := map[], 16;
      alive, kernel, failed := {}, map[], false;
      new;
      assert St().chans == map[];
    }

    /** A channel has been made for this loop, or destroyed: the poller does not notice. */
    ghost method Made(c: Channel)
      requires c !in alive && c.St() == Chan(c.fd, NONE_EVENT, 0, New) && Enabled(St(), Create(c, c.fd))
      modifies this`alive
      ensures alive == old(alive) + {c} && St() == Apply(old(St()), Create(c, c.fd))
    {
      alive := alive + {c};
      assert St().chans == old(St()).chans[c := c.St()];
    }

    ghost method Destroyed(c: Channel)
      requires Enabled(St(), Destroy(c))
      modifies this`alive
      ensures alive == old(alive) - {c} && St() == Apply(old(St()), Destroy(c))
    {
      alive := alive - {c};
      assert St().chans == old(St()).chans - {c};
    }

    /** `epoll_ctl` */
    method Update(op: Op, c: Channel)
      requires c in alive
      modifies this`kernel, this`failed
      ensures St() == Ctl(old(St()), op, c)
    {
      if op.Add? <==> c.fd in kernel {
        failed := true;
      } else if op.Del? {
        kernel := kernel - {c.fd};
      } else {
        kernel := kernel[c.fd := Registration(c.events, c)];
      }
    }

    method UpdateChannel(c: Channel)
      requires c in alive
      modifies this, c`index
      ensures alive == old(alive) && St() == UpdateStep(old(St()), c)
    {
      var index := c.index;
      ghost var s := St();
      assert s.chans[c] == c.St();
      if index == New || index == Deleted {
        if index == New {
          channels := channels[c.fd := c];
        }
        ghost var r := if s.chans[c].index.New? then s.(channels := s.channels[c.fd := c]) else s;
        assert St() == r;
        SetIndexOf(c, Added);
        Update(Add, c);
        assert St() == Ctl(SetIndex(r, c, Added), Add, c);
      } else if c.events == NONE_EVENT {
        Update(Del, c);
        SetIndexOf(c, Deleted);
      } else {
        Update(Mod, c);
      }
    }

    method SetIndexOf(c: Channel, index: Index)
      requires c in alive
      modifies c`index
      ensures St() == SetIndex(old(St()), c, index)
    {
      c.index := index;
    }

    method RemoveChannel(c: Channel)
      requires c in alive
      modifies this, c`index
      ensures alive == old(alive) && St() == RemoveStep(old(St()), c)
    {
      ghost var s := St();
      assert s.chans[c] == c.St();
      channels := channels - {c.fd};
      assert St() == s.(channels := s.channels - {s.chans[c].fd});
      if c.index == Added {
        Update(Del, c);
      }
      SetIndexOf(c, New);
    }

    method HasChannel(c: Channel) returns (found: bool)
      requires c in alive && Inv(St())
      ensures found <==> c.index != New
    {
      assert Mirrors(St(), c);
      found := c.fd in channels && channels[c.fd] == c;
    }

    /** `reports`: the events the kernel has written, each with the pointer it was given. */
    method FillActivateChannels(reports: seq<Report>, ghost ready: seq<Ready>) returns (active: seq<Channel>)
      requires AllWatched(St(), ready) && IsReportOf(St(), reports, ready)
      requires forall i :: 0 <= i < |reports| ==> reports[i].channel in alive
      modifies alive`revents
      ensures St() == WaitStep(old(St()), ready)
      ensures active == Active(old(St()), ready)
    {
      active := [];
      for i := 0 to |reports|
        invariant AllWatched(old(St()), ready[..i])
        invariant St() == WaitStep(old(St()), ready[..i])
        invariant active == Active(old(St()), ready)[..i]
      {
        var c := reports[i].channel;
        assert ready[..i + 1][..i] == ready[..i];
        SetReventsOf(c, reports[i].revents);
        active := active + [c];
      }
      assert ready[..|reports|] == ready;
    }

    method SetReventsOf(c: Channel, revents: bv32)
      requires c in alive
      modifies c`revents
      ensures St() == SetRevents(old(St()), c, revents)
    {
      c.revents := revents;
    }

    /** `poll`: the list of events doubles when the kernel has filled it. */
    method PollOnce(reports: seq<Report>, ghost ready: seq<Ready>) returns (active: seq<Channel>)
      requires |reports| <= eventListSize
      requires AllWatched(St(), ready) && IsReportOf(St(), reports, ready)
      requires forall i :: 0 <= i < |reports| ==> reports[i].channel in alive
      modifies this`eventListSize, alive`revents
      ensures St() == WaitStep(old(St()), ready) && active == Active(old(St()), ready)
      ensures old(eventListSize) > 0 ==> |reports| < eventListSize
    {
      active := [];
      if |reports| > 0 {
        active := FillActivateChannels(reports, ready);
        if |reports| == eventListSize {
          eventListSize := eventListSize * 2;
        }
      }
    }
  }
}
