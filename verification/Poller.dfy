/**
 Channels and the epoll registration table (myTinymuduo/resoure/EpollPoll.cpp, Channel.h).

 The poller keeps a map of channels and each channel an index; the kernel keeps its own interest
 set, which here is ghost state changed only by epoll_ctl.  An illegal epoll_ctl (adding what is
 there, changing or deleting what is not) is remembered forever.
 */
module Poller {
  const KNEW := -1
  const KADDED := 1
  const KDELETED := 2

  type Mask = bv8

  const EPOLLIN: Mask := 1
  const EPOLLPRI: Mask := 2
  const EPOLLOUT: Mask := 4
  const EPOLLERR: Mask := 8
  const EPOLLHUP: Mask := 16

  const NONE_EVENT: Mask := 0
  const READ_EVENT: Mask := EPOLLIN | EPOLLPRI
  const WRITE_EVENT: Mask := EPOLLOUT

  // ---- the kernel ----

  datatype Ctl = ADD | MOD | DEL

  datatype Registration<T> = Registration(mask: Mask, channel: T)

  datatype Kernel<T> = Kernel(table: map<int, Registration<T>>, legal: bool)

  function EpollCtl<T>(k: Kernel<T>, op: Ctl, fd: int, r: Registration<T>): Kernel<T> {
    match op
    case ADD => if fd in k.table then k.(legal := false) else k.(table := k.table[fd := r])
    case MOD => if fd in k.table then k.(table := k.table[fd := r]) else k.(legal := false)
    case DEL => if fd in k.table then k.(table := k.table - {fd}) else k.(legal := false)
  }

  // ---- the poller as a state machine over any number of channels ----

  datatype ChannelState = ChannelState(fd: int, events: Mask, index: int)

  /** live holds the channel objects that exist; channels is the poller's own map. */
  datatype State<T> = State(channels: map<int, T>, live: map<T, ChannelState>, kernel: Kernel<T>)

  datatype Change = EnableReading | DisableReading | EnableWriting | DisableWriting | DisableAll

  datatype Action<T> =
    | Create(c: T, fd: int)
    | Change(c: T, change: Change)
    | Remove(c: T)
    | Destroy(c: T)

  /** One live channel for each descriptor, and a channel is removed before it is destroyed. */
  ghost predicate Enabled<T>(s: State<T>, a: Action<T>) {
    match a
    case Create(c, fd) => c !in s.live && forall d :: d in s.live ==> s.live[d].fd != fd
    case Change(c, _) => c in s.live
    case Remove(c) => c in s.live
    case Destroy(c) => c in s.live && s.live[c].index == KNEW
  }

  function Changed(events: Mask, change: Change): Mask {
    match change
    case EnableReading => events | READ_EVENT
    case DisableReading => events & !READ_EVENT
    case EnableWriting => events | WRITE_EVENT
    case DisableWriting => events & !WRITE_EVENT
    case DisableAll => NONE_EVENT
  }

  /** Enabling is undone by disabling, and reading and writing do not touch each other's bits. */
  lemma MasksIndependent(events: Mask)
    ensures Changed(events, EnableWriting) & WRITE_EVENT != 0 && Changed(events, DisableWriting) & WRITE_EVENT == 0
    ensures Changed(events, EnableReading) & READ_EVENT == READ_EVENT && Changed(events, DisableReading) & READ_EVENT == 0
    ensures Changed(events, DisableAll) == 0
    ensures events & WRITE_EVENT == 0 ==> Changed(Changed(events, EnableWriting), DisableWriting) == events
    ensures events & READ_EVENT == 0 ==> Changed(Changed(events, EnableReading), DisableReading) == events
    ensures forall change :: change in {EnableWriting, DisableWriting} ==> Changed(events, change) & READ_EVENT == events & READ_EVENT
    ensures forall change :: change in {EnableReading, DisableReading} ==> Changed(events, change) & WRITE_EVENT == events & WRITE_EVENT
  {
  }

  /** updateChannel. */
  function Updated<T>(s: State<T>, c: T): State<T>
    requires c in s.live
  {
    var x := s.live[c];
    var r := Registration(x.events, c);
    if x.index == KNEW || x.index == KDELETED then
      State(if x.index == KNEW then s.channels[x.fd := c] else s.channels,
            s.live[c := x.(index := KADDED)], EpollCtl(s.kernel, ADD, x.fd, r))
    else if x.events == NONE_EVENT then
      State(s.channels, s.live[c := x.(index := KDELETED)], EpollCtl(s.kernel, DEL, x.fd, r))
    else
      s.(kernel := EpollCtl(s.kernel, MOD, x.fd, r))
  }

  /** removeChannel. */
  function Removed<T>(s: State<T>, c: T): State<T>
    requires c in s.live
  {
    var x := s.live[c];
    State(s.channels - {x.fd}, s.live[c := x.(index := KNEW)],
          if x.index == KADDED then EpollCtl(s.kernel, DEL, x.fd, Registration(x.events, c)) else s.kernel)
  }

  function WithMask<T>(s: State<T>, c: T, mask: Mask): State<T>
    requires c in s.live
  {
    s.(live := s.live[c := s.live[c].(events := mask)])
  }

  ghost function Apply<T>(s: State<T>, a: Action<T>): State<T>
    requires Enabled(s, a)
  {
    match a
    case Create(c, fd) => s.(live := s.live[c := ChannelState(fd, NONE_EVENT, KNEW)])
    case Change(c, change) => Updated(WithMask(s, c, Changed(s.live[c].events, change)), c)
    case Remove(c) => Removed(s, c)
    case Destroy(c) => s.(live := s.live - {c})
  }

  ghost function Next<T>(s: State<T>, a: Action<T>): State<T> {
    if Enabled(s, a) then Apply(s, a) else s
  }

  ghost function Exec<T>(s: State<T>, run: seq<Action<T>>): State<T> {
    if run == [] then s else Next(Exec(s, run[..|run| - 1]), run[|run| - 1])
  }

  function Init<T>(): State<T> {
    State(map[], map[], Kernel(map[], true))
  }

  // ---- what a channel wants, told from the calls alone ----

  /** The latest call about c that mattered for its reading, or its writing, since c was created turned it on. */
  ghost predicate Wants<T>(s: State<T>, run: seq<Action<T>>, c: T, on: Change, off: Change) {
    if run == [] then false else
    var before, a := run[..|run| - 1], run[|run| - 1];
    if !Enabled(Exec(s, before), a) || a.c != c then Wants(s, before, c, on, off)
    else if a.Create? then false
    else if a.Change? && a.change == on then true
    else if a.Change? && a.change in {off, DisableAll} then false
    else Wants(s, before, c, on, off)
  }

  function MaskFor(reading: bool, writing: bool): Mask {
    (if reading then EPOLLIN | EPOLLPRI else 0) | (if writing then EPOLLOUT else 0)
  }

  lemma ChangedMask(reading: bool, writing: bool, change: Change)
    ensures Changed(MaskFor(reading, writing), change)
         == match change
            case EnableReading => MaskFor(true, writing)
            case DisableReading => MaskFor(false, writing)
            case EnableWriting => MaskFor(reading, true)
            case DisableWriting => MaskFor(reading, false)
            case DisableAll => MaskFor(false, false)
  {
  }

  /** In every run the mask of a channel is what was last asked for reading and for writing. */
  lemma {:induction false} MaskIsWhatWasAsked<T>(run: seq<Action<T>>, c: T)
    requires c in Exec(Init(), run).live
    ensures Exec(Init(), run).live[c].events
         == MaskFor(Wants(Init(), run, c, EnableReading, DisableReading), Wants(Init(), run, c, EnableWriting, DisableWriting))
    decreases |run|
  {
    if run != [] {
      var before, a := run[..|run| - 1], run[|run| - 1];
      var s := Exec(Init(), before);
      if c in s.live {
        MaskIsWhatWasAsked(before, c);
      }
      if a.Change? {
        ChangedMask(Wants(Init(), before, c, EnableReading, DisableReading),
                    Wants(Init(), before, c, EnableWriting, DisableWriting), a.change);
      }
    }
  }

  // ---- agreement ----

  /** What the index of a live channel says about the two tables. */
  ghost predicate IndexSays<T>(s: State<T>, c: T)
    requires c in s.live
  {
    var x := s.live[c];
    && x.index in {KNEW, KADDED, KDELETED}
    && (x.fd in s.channels <==> x.index != KNEW)
    && (x.fd in s.channels ==> s.channels[x.fd] == c)
    && (x.fd in s.kernel.table <==> x.index == KADDED)
    && (x.fd in s.kernel.table ==> s.kernel.table[x.fd] == Registration(x.events, c))
  }

  ghost predicate OneEach<T>(s: State<T>) {
    forall c, d :: c in s.live && d in s.live && s.live[c].fd == s.live[d].fd ==> c == d
  }

  /** Neither table mentions anything but live channels, under their own descriptor. */
  ghost predicate NoStrays<T>(s: State<T>) {
    && (forall fd :: fd in s.channels ==> s.channels[fd] in s.live && s.live[s.channels[fd]].fd == fd)
    && (forall fd :: fd in s.kernel.table ==>
          s.kernel.table[fd].channel in s.live && s.live[s.kernel.table[fd].channel].fd == fd)
  }

  ghost predicate Agrees<T>(s: State<T>) {
    && OneEach(s) && NoStrays(s) && s.kernel.legal
    && forall c :: c in s.live ==> IndexSays(s, c)
  }

  lemma UpdatedAgrees<T>(s: State<T>, c: T, mask: Mask)
    requires Agrees(s) && c in s.live
    ensures Agrees(Updated(WithMask(s, c, mask), c))
  {
    var t := Updated(WithMask(s, c, mask), c);
    assert IndexSays(s, c);
    forall d | d in t.live ensures IndexSays(t, d) {
      assert IndexSays(s, d);
      assert d != c ==> s.live[d].fd != s.live[c].fd;
    }
  }

  lemma RemovedAgrees<T>(s: State<T>, c: T)
    requires Agrees(s) && c in s.live
    ensures Agrees(Removed(s, c))
  {
    var t := Removed(s, c);
    assert IndexSays(s, c);
    forall d | d in t.live ensures IndexSays(t, d) {
      assert IndexSays(s, d);
      assert d != c ==> s.live[d].fd != s.live[c].fd;
    }
  }

  lemma CreatedAgrees<T>(s: State<T>, c: T, fd: int)
    requires Agrees(s) && Enabled(s, Create(c, fd))
    ensures Agrees(Apply(s, Create(c, fd)))
  {
    var t := Apply(s, Create(c, fd));
    forall d | d in t.live ensures IndexSays(t, d) {
      assert d != c ==> IndexSays(s, d);
    }
  }

  lemma DestroyedAgrees<T>(s: State<T>, c: T)
    requires Agrees(s) && Enabled(s, Destroy(c))
    ensures Agrees(Apply(s, Destroy(c)))
  {
    var t := Apply(s, Destroy(c));
    assert IndexSays(s, c);
    forall d | d in t.live ensures IndexSays(t, d) {
      assert IndexSays(s, d);
    }
  }

  lemma StepKeepsAgreement<T>(s: State<T>, a: Action<T>)
    requires Agrees(s)
    ensures Agrees(Next(s, a))
  {
    if Enabled(s, a) {
      match a
      case Create(c, fd) => CreatedAgrees(s, c, fd);
      case Change(c, change) => UpdatedAgrees(s, c, Changed(s.live[c].events, change));
      case Remove(c) => RemovedAgrees(s, c);
      case Destroy(c) => DestroyedAgrees(s, c);
    }
  }

  /**
   In every run, the interest set of the kernel is exactly the channels with index KAdded, each
   with its own mask and pointer; a channel with index KDeleted is in the map only and one with
   KNew in neither; and every epoll_ctl was legal.
   */
  lemma {:induction false} PollerAgreesWithKernel<T>(run: seq<Action<T>>)
    ensures Agrees(Exec(Init(), run))
    decreases |run|
  {
    if run != [] {
      PollerAgreesWithKernel(run[..|run| - 1]);
      StepKeepsAgreement(Exec(Init(), run[..|run| - 1]), run[|run| - 1]);
    }
  }

  // ---- interest and registration ----

  /** An update registers its channel unless it takes a registered one's last interest; remove makes it unknown. */
  lemma IndexAfter<T>(s: State<T>, c: T, change: Change)
    requires Agrees(s) && c in s.live
    ensures var t := Next(s, Change(c, change));
            c in t.live && t.live[c].index == if s.live[c].index == KADDED && t.live[c].events == NONE_EVENT then KDELETED else KADDED
    ensures var t := Next(s, Remove(c));
            c in t.live && t.live[c] == s.live[c].(index := KNEW)
            && s.live[c].fd !in t.channels && s.live[c].fd !in t.kernel.table
  {
    assert IndexSays(s, c);
  }

  /** The channels the poller knows are watched by the kernel exactly while they want something. */
  ghost predicate Exact<T>(s: State<T>) {
    forall c :: c in s.live && s.live[c].index != KNEW ==> (s.live[c].index == KADDED <==> s.live[c].events != NONE_EVENT)
  }

  /** An update that leaves no interest on a channel that is not registered. */
  ghost predicate Idle<T>(s: State<T>, a: Action<T>) {
    && a.Change? && a.c in s.live
    && s.live[a.c].index != KADDED
    && Changed(s.live[a.c].events, a.change) == NONE_EVENT
  }

  /** Such an update, and no other, registers a channel that wants nothing. */
  lemma ExactUnlessIdle<T>(s: State<T>, a: Action<T>)
    requires Agrees(s) && Exact(s)
    ensures Exact(Next(s, a)) <==> !Idle(s, a)
  {
    var t := Next(s, a);
    if Enabled(s, a) {
      assert a.Create? || IndexSays(s, a.c);
      if Idle(s, a) {
        assert t.live[a.c].index == KADDED && t.live[a.c].events == NONE_EVENT;
      }
    }
  }

  ghost predicate NeverIdle<T>(run: seq<Action<T>>) {
    run != [] ==> NeverIdle(run[..|run| - 1]) && !Idle(Exec(Init(), run[..|run| - 1]), run[|run| - 1])
  }

  lemma {:induction false} NeverIdleExact<T>(run: seq<Action<T>>)
    requires NeverIdle(run)
    ensures Exact(Exec(Init(), run))
    decreases |run|
  {
    if run != [] {
      var before := run[..|run| - 1];
      NeverIdleExact(before);
      PollerAgreesWithKernel(before);
      ExactUnlessIdle(Exec(Init(), before), run[|run| - 1]);
    }
  }

  /** disableAll twice: the second call registers the descriptor again, with an empty mask. */
  lemma DisabledTwiceExample(c: int, fd: int)
    ensures var run := [Create(c, fd), Change(c, EnableReading), Change(c, DisableAll), Change(c, DisableAll)];
            var s := Exec(Init(), run);
            fd in s.kernel.table && s.kernel.table[fd].mask == NONE_EVENT && !Exact(s)
  {
    var created := Next(Init(), Create(c, fd));
    var reading := Next(created, Change(c, EnableReading));
    var once := Next(reading, Change(c, DisableAll));
    var twice := Next(once, Change(c, DisableAll));
    var run := [Create(c, fd), Change(c, EnableReading), Change(c, DisableAll), Change(c, DisableAll)];
    assert reading.live[c].index == KADDED && once.live[c].index == KDELETED;
    assert twice.live[c].index == KADDED;
    assert run[..3][..2] == run[..2] && run[..2][..1] == run[..1] && run[..1][..0] == [];
    assert Exec(Init(), run[..1]) == created;
    assert Exec(Init(), run[..2]) == reading;
    assert Exec(Init(), run[..3]) == once;
    assert Exec(Init(), run) == twice;
  }

  // ---- the objects ----

  class Channel {
    const fd: int
    const poller: EPollPoller
    var events: Mask
    var index: int

    constructor (poller: EPollPoller, fd: int)
      requires poller.Valid() && forall c :: c in poller.live ==> c.fd != fd
      modifies poller`live
      ensures poller.Valid() && this in poller.live && poller.Abs() == Next(old(poller.Abs()), Create(this, fd))
    {
      this.poller, this.fd := poller, fd;
      events, index := NONE_EVENT, KNEW;
      new;
      poller.live := poller.live + {this};
    }

    ghost predicate Valid()
      reads this, poller, poller.live
    {
      poller.Valid() && this in poller.live
    }

    /** The destructor: the channel must have been removed. */
    method Destroy()
      requires Valid() && index == KNEW
      modifies poller`live
      ensures poller.Valid() && poller.Abs() == Next(old(poller.Abs()), Action.Destroy(this))
    {
      poller.live := poller.live - {this};
    }

    method Update()
      requires Valid()
      modifies this`index, poller`channels, poller`kernel
      ensures Valid() && poller.Abs() == Updated(old(poller.Abs()), this)
    {
      poller.UpdateChannel(this);
    }

    method SetEvents(mask: Mask)
      requires Valid()
      modifies this`events
      ensures Valid() && poller.Abs() == WithMask(old(poller.Abs()), this, mask)
    {
      events := mask;
    }

    method EnableReading()
      requires Valid()
      modifies this`events, this`index, poller`channels, poller`kernel
      ensures Valid() && poller.Abs() == Next(old(poller.Abs()), Action.Change(this, Change.EnableReading))
    {
      SetEvents(events | READ_EVENT);
      Update();
    }

    method DisableReading()
      requires Valid()
      modifies this`events, this`index, poller`channels, poller`kernel
      ensures Valid() && poller.Abs() == Next(old(poller.Abs()), Action.Change(this, Change.DisableReading))
    {
      SetEvents(events & !READ_EVENT);
      Update();
    }

    method EnableWriting()
      requires Valid()
      modifies this`events, this`index, poller`channels, poller`kernel
      ensures Valid() && poller.Abs() == Next(old(poller.Abs()), Action.Change(this, Change.EnableWriting))
    {
      SetEvents(events | WRITE_EVENT);
      Update();
    }

    method DisableWriting()
      requires Valid()
      modifies this`events, this`index, poller`channels, poller`kernel
      ensures Valid() && poller.Abs() == Next(old(poller.Abs()), Action.Change(this, Change.DisableWriting))
    {
      SetEvents(events & !WRITE_EVENT);
      Update();
    }

    method DisableAll()
      requires Valid()
      modifies this`events, this`index, poller`channels, poller`kernel
      ensures Valid() && poller.Abs() == Next(old(poller.Abs()), Action.Change(this, Change.DisableAll))
    {
      SetEvents(NONE_EVENT);
      Update();
    }

    method Remove()
      requires Valid()
      modifies this`index, poller`channels, poller`kernel
      ensures Valid() && poller.Abs() == Next(old(poller.Abs()), Action.Remove(this))
    {
      poller.RemoveChannel(this);
    }

    predicate IsNoneEvent()
      reads this
    {
      events == NONE_EVENT
    }
  }

  class EPollPoller {
    var channels: map<int, Channel>
    ghost var live: set<Channel>
    ghost var kernel: Kernel<Channel>

    ghost function Abs(): State<Channel>
      reads this, live
    {
      State(channels, map c | c in live :: ChannelState(c.fd, c.events, c.index), kernel)
    }

    ghost predicate Valid()
      reads this, live
    {
      forall c :: c in live ==> c.poller == this
    }

    constructor ()
      ensures Valid() && Abs() == Init()
    {
      channels, live, kernel := map[], {}, Kernel(map[], true);
    }

    method UpdateChannel(c: Channel)
      requires Valid() && c in live
      modifies this`channels, this`kernel, c`index
      ensures Valid() && Abs() == Updated(old(Abs()), c)
    {
      var index := c.index;
      if index == KNEW || index == KDELETED {
        if index == KNEW {
          channels := channels[c.fd := c];
        }
        c.index := KADDED;
        Update(ADD, c);
      } else if c.IsNoneEvent() {
        Update(DEL, c);
        c.index := KDELETED;
      } else {
        Update(MOD, c);
      }
    }

    /** epoll_ctl. */
    method Update(op: Ctl, c: Channel)
      modifies this`kernel
      ensures kernel == EpollCtl(old(kernel), op, c.fd, Registration(c.events, c))
    {
      kernel := EpollCtl(kernel, op, c.fd, Registration(c.events, c));
    }

    method RemoveChannel(c: Channel)
      requires Valid() && c in live
      modifies this`channels, this`kernel, c`index
      ensures Valid() && Abs() == Removed(old(Abs()), c)
    {
      channels := channels - {c.fd};
      if c.index == KADDED {
        Update(DEL, c);
      }
      c.index := KNEW;
    }
  }
}
