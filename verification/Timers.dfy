/**
 The timer queue of one event loop (myTinymuduo/resoure/TimerQueue.cpp, Timer.h).

 Timer objects live in an explicit heap, so that use after delete, double delete and the reuse
 of an address are visible.  State and Apply describe one loop-thread operation at a time, with
 constructors on any thread in between; class TimerQueue carries the operations out with the
 source's loops.

 Two readings of the source are fixed here.  Clock readings, expirations and intervals share one
 integer unit.  Whether a timer repeats is a free constant of the timer (the source derives it
 from the expiration).
 */
module Timers {
  import opened Prelude

  type Addr = nat

  datatype Id = Id(addr: Addr, num: int)
  datatype Timer = Timer(expiration: int, interval: int, repeat: bool, num: int)
  datatype Entry = Entry(time: int, addr: Addr)

  /** The timerfd: off, or due (and from then on readable) at a deadline set at some instant. */
  datatype Alarm = Off | Armed(deadline: int, setAt: int)

  /** The timers and the places that refer to them. */
  datatype Pool = Pool(
    heap: map<Addr, Timer>,      // constructed and not deleted
    building: map<Addr, int>,    // constructors between s_numCreated++ and the load: the counter after ++
    created: int,                // s_numCreated, shared by all loops
    issued: set<Id>,             // the id of every timer constructed, as an observer sees it
    queued: set<Addr>,           // addTimerInLoop is still to run
    timers: seq<Entry>,          // timers_, in the order of the std::set
    active: set<Id>,             // activeTimers_
    expired: seq<Entry>)         // the vector local to handleRead; empty outside it

  datatype State = State(
    pool: Pool,
    canceling: set<Id>,          // caneclingTimers_
    calling: bool,               // callingExpiredTimers_
    next: nat,                   // how many callbacks of this round have started
    now: int,                    // the reading at the top of handleRead
    alarm: Alarm,
    // what an observer has seen
    round: nat,                  // calls of handleRead
    ran: seq<(nat, Id)>,         // every callback: the round and the timer
    // calls of addTimer that have handed the timer over and are still to read its number, and
    // what those that have read it got
    unread: set<Id>,
    got: seq<(Id, Option<Id>)>)

  const EMPTY := Pool(map[], map[], 0, {}, {}, [], {}, [])
  const INIT := State(EMPTY, {}, false, 0, 0, Off, 0, [], {}, [])

  datatype Action =
    | Alloc(addr: Addr)                                              // new Timer: s_numCreated++
    | Load(addr: Addr, when: int, interval: int, repeat: bool)       // sequence_ = s_numCreated.load()
    | ReadNumber(id: Id)                                             // addTimer's timer->sequence()
    | Bump                                                           // a constructor of another loop's timer
    | AddInLoop(addr: Addr, clock: int)
    | Cancel(id: Id)
    | Begin(now: int, sentry: Addr)                                  // handleRead up to the first callback
    | RunNext
    | Finish(clock: int)                                             // handleRead after the last callback

  // ---- the ordered index ----

  predicate Lt(a: Entry, b: Entry) {
    a.time < b.time || (a.time == b.time && a.addr < b.addr)
  }

  predicate Sorted(ts: seq<Entry>) {
    forall i, j :: 0 <= i < j < |ts| ==> Lt(ts[i], ts[j])
  }

  function InsertSorted(ts: seq<Entry>, e: Entry): (r: seq<Entry>)
    ensures forall x :: x in r <==> x == e || x in ts
    ensures Sorted(ts) && e !in ts ==> Sorted(r)
    ensures |r| == |ts| + 1
    ensures r[0] == if ts == [] || Lt(e, ts[0]) then e else ts[0]
  {
    if ts == [] || Lt(e, ts[0]) then [e] + ts else [ts[0]] + InsertSorted(ts[1..], e)
  }

  function Erase(ts: seq<Entry>, e: Entry): (r: seq<Entry>)
    ensures Sorted(ts) ==> Sorted(r) && forall x :: x in r <==> x in ts && x != e
    ensures |r| == if e in ts then |ts| - 1 else |ts|
  {
    if ts == [] then []
    else if ts[0] == e then ts[1..]
    else
      var r := Erase(ts[1..], e);
      assert Sorted(ts) ==> forall x :: x in r ==> Lt(ts[0], x);
      [ts[0]] + r
  }

  /** std::lower_bound: the first position not below e. */
  function LowerBound(ts: seq<Entry>, e: Entry): (k: nat)
    ensures k <= |ts| && (forall i :: 0 <= i < k ==> Lt(ts[i], e)) && (k < |ts| ==> !Lt(ts[k], e))
  {
    if ts == [] || !Lt(ts[0], e) then 0 else 1 + LowerBound(ts[1..], e)
  }

  /** The first position later than t. */
  function FirstAfter(ts: seq<Entry>, t: int): (k: nat)
    ensures k <= |ts| && (forall i :: 0 <= i < k ==> ts[i].time <= t) && (k < |ts| ==> ts[k].time > t)
  {
    if ts == [] || ts[0].time > t then 0 else 1 + FirstAfter(ts[1..], t)
  }

  /**
   Where getExpired cuts: after the first key that is not below (now, sentry), and its ties.
   The source dereferences end() when there is no such key; that is read as "take all".
   */
  function Cut(ts: seq<Entry>, now: int, sentry: Addr): (k: nat)
    ensures k <= |ts|
  {
    var end := LowerBound(ts, Entry(now, sentry));
    if end == |ts| then |ts| else FirstAfter(ts, ts[end].time)
  }

  /** The cut is downward closed and holds every timer that is due. */
  lemma CutTakesAllDue(ts: seq<Entry>, now: int, sentry: Addr)
    requires Sorted(ts)
    ensures forall i :: Cut(ts, now, sentry) <= i < |ts| ==> ts[i].time > now
    ensures forall i, j :: 0 <= i < Cut(ts, now, sentry) <= j < |ts| ==> ts[i].time < ts[j].time
  {
    var k := Cut(ts, now, sentry);
    if k < |ts| {
      forall j | k <= j < |ts| ensures ts[j].time >= ts[k].time {
        assert j == k || Lt(ts[k], ts[j]);
      }
    }
  }

  /**
   It takes nothing that is not due exactly when every timer is due, or some key due at now
   lies beyond the sentry (which the assert in getExpired rules out): otherwise the earliest
   timers still in the future run early.
   */
  lemma CutTakesOnlyDueIff(ts: seq<Entry>, now: int, sentry: Addr)
    requires Sorted(ts)
    ensures (forall i :: 0 <= i < Cut(ts, now, sentry) ==> ts[i].time <= now)
       <==> ((forall e :: e in ts ==> e.time <= now) || (exists e :: e in ts && e.time == now && e.addr >= sentry))
  {
    var end := LowerBound(ts, Entry(now, sentry));
    var k := Cut(ts, now, sentry);
    if e :| e in ts && e.time == now && e.addr >= sentry {
      var i :| 0 <= i < |ts| && ts[i] == e;
      assert end <= i;
      assert ts[end].time == now by {
        assert end == i || Lt(ts[end], ts[i]);
      }
    } else if end < |ts| {
      assert ts[end] in ts && ts[end].time > now;
      assert end < k by {
        forall i | 0 <= i <= end ensures ts[i].time <= ts[end].time {
          assert i == end || Lt(ts[i], ts[end]);
        }
      }
    } else {
      forall e | e in ts ensures e.time <= now {
        var i :| 0 <= i < |ts| && ts[i] == e;
      }
    }
  }

  /** For example a timer set for time 50 runs when the queue is read at time 10. */
  lemma EarlyRunExample()
    ensures Cut([Entry(50, 1)], 10, 2) == 1
  {
    assert [Entry(50, 1)][1..] == [];
  }

  // ---- the alarm ----

  const UNITS_PER_SECOND := 1000 * 1000
  const FLOOR := 100

  datatype Timespec = Timespec(sec: int, nsec: int)

  function HowMuchTimeFromNow(when: int, clock: int): Timespec {
    var t := if when - clock < FLOOR then FLOOR else when - clock;
    Timespec(t / UNITS_PER_SECOND, (t % UNITS_PER_SECOND) * 1000)
  }

  /** What timerfd_settime makes of a timespec, in units. */
  function Deadline(clock: int, ts: Timespec): int {
    clock + ts.sec * UNITS_PER_SECOND + ts.nsec / 1000
  }

  function Arm(when: int, clock: int): Alarm {
    Armed(Deadline(clock, HowMuchTimeFromNow(when, clock)), clock)
  }

  /** The split is normalised and loses nothing: the alarm is due at when, or at the floor. */
  lemma TimespecLosesNothing(when: int, clock: int)
    ensures var ts := HowMuchTimeFromNow(when, clock);
            0 <= ts.nsec < 1_000_000_000 && ts.sec >= 0 && (ts.sec, ts.nsec) != (0, 0)
    ensures Arm(when, clock).deadline == if when < clock + FLOOR then clock + FLOOR else when
  {
    var t := if when - clock < FLOOR then FLOOR else when - clock;
    assert t == (t / UNITS_PER_SECOND) * UNITS_PER_SECOND + t % UNITS_PER_SECOND;
  }

  // ---- the operations on the pool ----

  predicate Live(p: Pool, id: Id) {
    id.addr in p.heap && p.heap[id.addr].num == id.num
  }

  /** The object behind a pointer; a dangling pointer reads as an arbitrary timer. */
  function Deref(p: Pool, a: Addr): Timer {
    if a in p.heap then p.heap[a] else Timer(0, 0, false, 0)
  }

  function EntryOf(p: Pool, a: Addr): Entry {
    Entry(Deref(p, a).expiration, a)
  }

  function IdOf(p: Pool, a: Addr): Id {
    Id(a, Deref(p, a).num)
  }

  function Insert(p: Pool, a: Addr): Pool {
    p.(timers := InsertSorted(p.timers, EntryOf(p, a)), active := p.active + {IdOf(p, a)})
  }

  predicate Earliest(p: Pool, a: Addr) {
    p.timers == [] || Deref(p, a).expiration < p.timers[0].time
  }

  function Dequeue(p: Pool, a: Addr): Pool {
    p.(queued := p.queued - {a})
  }

  function Remove(p: Pool, id: Id): Pool {
    p.(timers := Erase(p.timers, EntryOf(p, id.addr)), active := p.active - {id}, heap := p.heap - {id.addr})
  }

  function FirstIds(p: Pool, k: nat): set<Id>
    requires k <= |p.timers|
  {
    set i | 0 <= i < k :: IdOf(p, p.timers[i].addr)
  }

  lemma OneMoreId(p: Pool, k: nat)
    requires k < |p.timers|
    ensures FirstIds(p, k + 1) == FirstIds(p, k) + {IdOf(p, p.timers[k].addr)}
  {
  }

  /** getExpired: the first k timers leave both indexes. */
  function Expire(p: Pool, k: nat): Pool
    requires k <= |p.timers|
  {
    p.(expired := p.timers[..k], timers := p.timers[k..],
       active := p.active - FirstIds(p, k))
  }

  /** The batch without its first timer, whose expiration is set anew. */
  function Take(p: Pool, expiration: int): Pool
    requires p.expired != []
  {
    var a := p.expired[0].addr;
    p.(heap := p.heap[a := Deref(p, a).(expiration := expiration)], expired := p.expired[1..])
  }

  /** The batch without its first timer, which is deleted. */
  function Drop(p: Pool): Pool
    requires p.expired != []
  {
    p.(heap := p.heap - {p.expired[0].addr}, expired := p.expired[1..])
  }

  predicate Repeats(p: Pool, marks: set<Id>)
    requires p.expired != []
  {
    Deref(p, p.expired[0].addr).repeat && IdOf(p, p.expired[0].addr) !in marks
  }

  function PutBack(p: Pool, expiration: int): Pool
    requires p.expired != []
  {
    Insert(Take(p, expiration), p.expired[0].addr)
  }

  /** When restart lets the first timer of the batch expire next. */
  function NextTime(p: Pool, now: int): int
    requires p.expired != []
  {
    now + Deref(p, p.expired[0].addr).interval
  }

  /** One turn of the loop in reset: re-arm the timer and put it back, or delete it. */
  function ResetOne(p: Pool, now: int, marks: set<Id>): Pool
    requires p.expired != []
  {
    if Repeats(p, marks) then PutBack(p, NextTime(p, now)) else Drop(p)
  }

  function ResetAll(p: Pool, now: int, marks: set<Id>): Pool
    decreases |p.expired|
  {
    if p.expired == [] then p else ResetAll(ResetOne(p, now, marks), now, marks)
  }

  // ---- the operations of the queue ----

  function AddTimerInLoop(s: State, a: Addr, clock: int): State {
    s.(pool := Insert(Dequeue(s.pool, a), a),
       alarm := if Earliest(s.pool, a) then Arm(Deref(s.pool, a).expiration, clock) else s.alarm)
  }

  function CancelInLoop(s: State, id: Id): State {
    if id in s.pool.active then s.(pool := Remove(s.pool, id))
    else if s.calling then s.(canceling := s.canceling + {id})
    else s
  }

  /** handleRead up to the first callback; the read of the timerfd switches the alarm off. */
  function BeginRound(s: State, now: int, sentry: Addr): State {
    State(Expire(s.pool, Cut(s.pool.timers, now, sentry)), {}, true, 0, now, Off, s.round + 1, s.ran, s.unread, s.got)
  }

  function RunCallback(s: State): State
    requires s.next < |s.pool.expired|
  {
    s.(next := s.next + 1, ran := s.ran + [(s.round, IdOf(s.pool, s.pool.expired[s.next].addr))])
  }

  /** The end of reset: set the alarm for the first timer if its expiration is positive. */
  function Rearm(timers: seq<Entry>, clock: int, alarm: Alarm): Alarm {
    if timers != [] && timers[0].time > 0 then Arm(timers[0].time, clock) else alarm
  }

  /** handleRead after the last callback. */
  function FinishRound(s: State, clock: int): State {
    var p := ResetAll(s.pool, s.now, s.canceling);
    s.(pool := p, calling := false, next := 0, alarm := Rearm(p.timers, clock, s.alarm))
  }

  // ---- the invariant ----

  ghost function Addrs(es: seq<Entry>): set<Addr> {
    set i | 0 <= i < |es| :: es[i].addr
  }

  /** The two indexes hold the same timers, each under its current expiration. */
  ghost predicate Indexed(p: Pool) {
    && Sorted(p.timers)
    && (forall e :: e in p.timers ==> e.addr in p.heap && p.heap[e.addr].expiration == e.time)
    && (forall id :: id in p.active <==> Live(p, id) && EntryOf(p, id.addr) in p.timers)
  }

  ghost predicate InFlight(p: Pool) {
    && (forall i :: 0 <= i < |p.expired| ==> p.expired[i].addr in p.heap)
    && (forall i, j :: 0 <= i < j < |p.expired| ==> p.expired[i].addr != p.expired[j].addr)
  }

  /** Every timer has exactly one owner: the indexes, the batch in flight, a queued functor, or a local. */
  ghost predicate Owned(p: Pool, held: set<Addr>) {
    && InFlight(p)
    && p.queued <= p.heap.Keys && held <= p.heap.Keys && p.queued !! held
    && (forall a :: a in p.heap && EntryOf(p, a) in p.timers ==> a !in Addrs(p.expired) && a !in p.queued && a !in held)
    && (forall a :: a in p.queued ==> a !in Addrs(p.expired))
    && (forall a :: a in held ==> a !in Addrs(p.expired))
    && (forall a :: a in p.heap ==> EntryOf(p, a) in p.timers || a in Addrs(p.expired) || a in p.queued || a in held)
  }

  /** Numbers only grow, so that an id never comes back on the same address. */
  ghost predicate Numbered(p: Pool) {
    && (forall a :: a in p.heap ==> IdOf(p, a) in p.issued)
    && (forall id :: id in p.issued ==> id.num <= p.created)
    && (forall a :: a in p.building ==> a !in p.heap && p.building[a] <= p.created)
    && (forall a, id :: a in p.building && id in p.issued && id.addr == a ==> id.num < p.building[a])
  }

  ghost predicate CoreHeld(p: Pool, held: set<Addr>) {
    Indexed(p) && Owned(p, held) && Numbered(p)
  }

  ghost predicate Core(p: Pool) {
    CoreHeld(p, {})
  }

  ghost predicate Inv(s: State) {
    && Core(s.pool)
    && s.next <= |s.pool.expired|
    && (!s.calling ==> s.pool.expired == [])
  }

  // ---- what keeps it ----

  /** A timer held by a local variable enters the indexes. */
  lemma InsertKeepsCore(p: Pool, a: Addr)
    requires CoreHeld(p, {a})
    ensures Core(Insert(p, a))
  {
    var q := Insert(p, a);
    assert EntryOf(p, a) !in p.timers;
    assert Indexed(q) by {
      forall id ensures id in q.active <==> Live(q, id) && EntryOf(q, id.addr) in q.timers {
        assert id in p.active <==> Live(p, id) && EntryOf(p, id.addr) in p.timers;
      }
    }
    assert Owned(q, {});
    assert Numbered(q);
  }

  /** A timer held by a local variable is deleted. */
  lemma DeleteKeepsCore(p: Pool, a: Addr)
    requires CoreHeld(p, {a})
    ensures Core(p.(heap := p.heap - {a}))
  {
    var q := p.(heap := p.heap - {a});
    assert Indexed(q) by {
      forall id ensures id in q.active <==> Live(q, id) && EntryOf(q, id.addr) in q.timers {
        assert id in p.active <==> Live(p, id) && EntryOf(p, id.addr) in p.timers;
      }
    }
    assert Owned(q, {});
    assert Numbered(q);
  }

  lemma DequeueKeepsCore(p: Pool, a: Addr)
    requires Core(p) && a in p.queued
    ensures CoreHeld(Dequeue(p, a), {a})
  {
    var q := Dequeue(p, a);
    assert Indexed(q) by {
      forall id ensures id in q.active <==> Live(q, id) && EntryOf(q, id.addr) in q.timers {
        assert id in p.active <==> Live(p, id) && EntryOf(p, id.addr) in p.timers;
      }
    }
    assert Owned(q, {a});
    assert Numbered(q);
  }

  lemma AddKeepsCore(p: Pool, a: Addr)
    requires Core(p) && a in p.queued
    ensures Core(Insert(Dequeue(p, a), a))
  {
    DequeueKeepsCore(p, a);
    InsertKeepsCore(Dequeue(p, a), a);
  }

  lemma RestOfAddrs(p: Pool)
    requires InFlight(p) && p.expired != []
    ensures Addrs(p.expired[1..]) == Addrs(p.expired) - {p.expired[0].addr}
  {
    forall x | x in Addrs(p.expired) - {p.expired[0].addr} ensures x in Addrs(p.expired[1..]) {
      var i :| 0 <= i < |p.expired| && p.expired[i].addr == x;
      assert p.expired[1..][i - 1].addr == x;
    }
  }

  lemma TakeKeepsIndexed(p: Pool, expiration: int)
    requires Indexed(p) && Owned(p, {}) && p.expired != []
    ensures Indexed(Take(p, expiration)) && forall e :: e in p.timers ==> e.addr != p.expired[0].addr
  {
    var a := p.expired[0].addr;
    var q := Take(p, expiration);
    assert a in Addrs(p.expired) && EntryOf(p, a) !in p.timers;
    assert forall e :: e in p.timers ==> e.addr != a;
    forall id ensures id in q.active <==> Live(q, id) && EntryOf(q, id.addr) in q.timers {
      assert id in p.active <==> Live(p, id) && EntryOf(p, id.addr) in p.timers;
    }
  }

  lemma TakeKeepsCore(p: Pool, expiration: int)
    requires Core(p) && p.expired != []
    ensures CoreHeld(Take(p, expiration), {p.expired[0].addr})
  {
    var a := p.expired[0].addr;
    var q := Take(p, expiration);
    assert a in Addrs(p.expired);
    RestOfAddrs(p);
    TakeKeepsIndexed(p, expiration);
    assert Owned(q, {a});
    assert Numbered(q);
  }

  lemma PutBackKeepsCore(p: Pool, expiration: int)
    requires Core(p) && p.expired != []
    ensures Core(PutBack(p, expiration))
  {
    TakeKeepsCore(p, expiration);
    InsertKeepsCore(Take(p, expiration), p.expired[0].addr);
  }

  lemma DropKeepsCore(p: Pool)
    requires Core(p) && p.expired != []
    ensures Core(Drop(p))
  {
    var a := p.expired[0].addr;
    TakeKeepsCore(p, 0);
    DeleteKeepsCore(Take(p, 0), a);
    assert Take(p, 0).heap - {a} == p.heap - {a};
  }

  /** What both branches of the loop in reset keep, the loop keeps. */
  lemma {:induction false} ResetInduction(q: Pool -> bool, p: Pool, now: int, marks: set<Id>)
    requires q(p)
    requires forall x :: q(x) && x.expired != [] && Repeats(x, marks) ==> q(PutBack(x, NextTime(x, now)))
    requires forall x :: q(x) && x.expired != [] && !Repeats(x, marks) ==> q(Drop(x))
    ensures q(ResetAll(p, now, marks))
    decreases |p.expired|
  {
    if p.expired != [] {
      ResetInduction(q, ResetOne(p, now, marks), now, marks);
    }
  }

  lemma ResetAllKeepsCore(p: Pool, now: int, marks: set<Id>)
    requires Core(p)
    ensures Core(ResetAll(p, now, marks))
  {
    forall x | Core(x) && x.expired != [] ensures Core(PutBack(x, NextTime(x, now))) {
      PutBackKeepsCore(x, NextTime(x, now));
    }
    forall x | Core(x) && x.expired != [] ensures Core(Drop(x)) {
      DropKeepsCore(x);
    }
    ResetInduction(x => Core(x), p, now, marks);
  }

  lemma {:induction false} ResetAllFrame(p: Pool, now: int, marks: set<Id>)
    ensures var q := ResetAll(p, now, marks);
            q.expired == [] && q.queued == p.queued && q.building == p.building && q.created == p.created && q.issued == p.issued
    decreases |p.expired|
  {
    if p.expired != [] {
      ResetAllFrame(ResetOne(p, now, marks), now, marks);
    }
  }

  lemma RemoveKeepsCore(p: Pool, id: Id)
    requires Core(p) && id in p.active
    ensures Core(Remove(p, id))
  {
    var q := Remove(p, id);
    assert Indexed(q) by {
      forall x ensures x in q.active <==> Live(q, x) && EntryOf(q, x.addr) in q.timers {
        assert x in p.active <==> Live(p, x) && EntryOf(p, x.addr) in p.timers;
      }
    }
    assert Owned(q, {});
    assert Numbered(q);
  }

  /** The timers have distinct addresses, so a cut of the index parts them. */
  lemma CutPartsAddresses(p: Pool, k: nat)
    requires Core(p) && k <= |p.timers|
    ensures forall i, j :: 0 <= i < j < k ==> p.timers[i].addr != p.timers[j].addr
    ensures forall x :: x in p.timers[k..] ==> x.addr !in Addrs(p.timers[..k])
    ensures forall x :: x in p.timers <==> x in p.timers[..k] || x in p.timers[k..]
  {
    forall i, j | 0 <= i < j < |p.timers| ensures p.timers[i].addr != p.timers[j].addr {
      assert p.timers[i] in p.timers && p.timers[j] in p.timers && Lt(p.timers[i], p.timers[j]);
    }
    assert p.timers == p.timers[..k] + p.timers[k..];
    forall x | x in p.timers[k..] ensures x.addr !in Addrs(p.timers[..k]) {
      var j :| 0 <= j < |p.timers[k..]| && p.timers[k..][j] == x;
      assert p.timers[k + j] == x;
    }
  }

  lemma ExpireKeepsIndexed(p: Pool, k: nat)
    requires Core(p) && k <= |p.timers|
    ensures Indexed(Expire(p, k))
  {
    var q := Expire(p, k);
    CutPartsAddresses(p, k);
    assert Sorted(q.timers) by {
      forall i, j | 0 <= i < j < |q.timers| ensures Lt(q.timers[i], q.timers[j]) {
        assert Lt(p.timers[k + i], p.timers[k + j]);
      }
    }
    forall id ensures id in q.active <==> Live(q, id) && EntryOf(q, id.addr) in q.timers {
      assert id in p.active <==> Live(p, id) && EntryOf(p, id.addr) in p.timers;
      if id in p.active && EntryOf(p, id.addr) in p.timers[..k] {
        var i :| 0 <= i < k && p.timers[i] == EntryOf(p, id.addr);
        assert IdOf(p, p.timers[i].addr) == id;
        assert p.timers[..k][i].addr == id.addr;
        assert id.addr in Addrs(p.timers[..k]);
      } else if id in p.active {
        forall i | 0 <= i < k ensures IdOf(p, p.timers[i].addr) != id {
          assert p.timers[..k][i] in p.timers[..k];
          assert p.timers[i] in p.timers;
        }
      }
    }
  }

  lemma ExpireKeepsOwned(p: Pool, k: nat)
    requires Core(p) && k <= |p.timers| && p.expired == []
    ensures Owned(Expire(p, k), {})
  {
    var q := Expire(p, k);
    CutPartsAddresses(p, k);
    assert forall i :: 0 <= i < k ==> q.expired[i] == p.timers[i] && p.timers[i] in p.timers;
    forall a | a in q.heap
      ensures EntryOf(q, a) in q.timers ==> a !in Addrs(q.expired) && a !in q.queued
      ensures a in q.queued ==> a !in Addrs(q.expired)
      ensures EntryOf(q, a) in q.timers || a in Addrs(q.expired) || a in q.queued
    {
      assert EntryOf(q, a) == EntryOf(p, a);
      if EntryOf(p, a) in p.timers[..k] {
        var i :| 0 <= i < k && p.timers[..k][i] == EntryOf(p, a);
        assert q.expired[i].addr == a;
      }
      if a in Addrs(q.expired) {
        var i :| 0 <= i < k && q.expired[i].addr == a;
        assert p.timers[i] == EntryOf(p, a);
      }
    }
  }

  lemma ExpireKeepsCore(p: Pool, k: nat)
    requires Core(p) && k <= |p.timers| && p.expired == []
    ensures Core(Expire(p, k))
  {
    ExpireKeepsIndexed(p, k);
    ExpireKeepsOwned(p, k);
    assert Numbered(Expire(p, k));
  }

  lemma CountKeepsCore(p: Pool, building: map<Addr, int>)
    requires Core(p)
    requires forall a :: a in building ==> if a in p.building && building[a] == p.building[a] then true
                                           else a !in p.heap && building[a] == p.created + 1
    ensures Core(p.(created := p.created + 1, building := building))
  {
    var q := p.(created := p.created + 1, building := building);
    assert Indexed(q) by {
      forall id ensures id in q.active <==> Live(q, id) && EntryOf(q, id.addr) in q.timers {
        assert id in p.active <==> Live(p, id) && EntryOf(p, id.addr) in p.timers;
      }
    }
    assert Owned(q, {});
    assert Numbered(q);
  }

  lemma LoadKeepsCore(p: Pool, a: Addr, tm: Timer)
    requires Core(p) && a in p.building && tm.num == p.created
    ensures Core(p.(building := p.building - {a}, heap := p.heap[a := tm], queued := p.queued + {a},
                    issued := p.issued + {Id(a, p.created)}))
  {
    var q := p.(building := p.building - {a}, heap := p.heap[a := tm], queued := p.queued + {a},
                issued := p.issued + {Id(a, p.created)});
    assert forall e :: e in p.timers ==> e.addr != a;
    assert forall i :: 0 <= i < |p.expired| ==> p.expired[i].addr != a;
    assert Indexed(q) by {
      forall id ensures id in q.active <==> Live(q, id) && EntryOf(q, id.addr) in q.timers {
        assert id in p.active <==> Live(p, id) && EntryOf(p, id.addr) in p.timers;
      }
    }
    assert Owned(q, {});
    assert Numbered(q);
  }

  // ---- runs ----

  predicate Enabled(s: State, a: Action) {
    var p := s.pool;
    match a
    case Alloc(addr) => addr !in p.heap && addr !in p.building
    case Load(addr, _, _, _) => addr in p.building
    case ReadNumber(id) => id in s.unread
    case Bump => true
    case AddInLoop(addr, _) => addr in p.queued
    case Cancel(_) => true
    case Begin(_, sentry) => !s.calling && sentry !in p.heap && sentry !in p.building
    case RunNext => s.calling && s.next < |p.expired|
    case Finish(_) => s.calling && s.next == |p.expired|
  }

  /** What addTimer makes of the pointer it kept; nothing good if the timer is deleted by then. */
  function NumberRead(p: Pool, id: Id): Option<Id> {
    if id.addr in p.heap then Some(IdOf(p, id.addr)) else None
  }

  function Construct(p: Pool, a: Action): Pool
    requires a.Alloc? || a.Load? || a.Bump?
  {
    match a
    case Alloc(addr) => p.(created := p.created + 1, building := p.building[addr := p.created + 1])
    case Load(addr, when, interval, repeat) =>
      p.(building := p.building - {addr}, heap := p.heap[addr := Timer(when, interval, repeat, p.created)],
         queued := p.queued + {addr}, issued := p.issued + {Id(addr, p.created)})
    case Bump => p.(created := p.created + 1)
  }

  function Apply(s: State, a: Action): State
    requires Enabled(s, a)
  {
    match a
    case AddInLoop(addr, clock) => AddTimerInLoop(s, addr, clock)
    case Cancel(id) => CancelInLoop(s, id)
    case Begin(now, sentry) => BeginRound(s, now, sentry)
    case RunNext => RunCallback(s)
    case Finish(clock) => FinishRound(s, clock)
    case ReadNumber(id) => s.(unread := s.unread - {id}, got := s.got + [(id, NumberRead(s.pool, id))])
    case _ => s.(pool := Construct(s.pool, a),
                 unread := if a.Load? then s.unread + {Id(a.addr, s.pool.created)} else s.unread)
  }

  lemma FinishKeepsInv(s: State, clock: int)
    requires Inv(s)
    ensures Inv(FinishRound(s, clock))
  {
    ResetAllKeepsCore(s.pool, s.now, s.canceling);
    ResetAllFrame(s.pool, s.now, s.canceling);
  }

  lemma ConstructKeepsInv(s: State, a: Action)
    requires Inv(s) && Enabled(s, a) && (a.Alloc? || a.Load? || a.Bump?)
    ensures Core(Construct(s.pool, a))
  {
    var p := s.pool;
    match a
    case Alloc(addr) => CountKeepsCore(p, p.building[addr := p.created + 1]);
    case Load(addr, when, interval, repeat) => LoadKeepsCore(p, addr, Timer(when, interval, repeat, p.created));
    case Bump => CountKeepsCore(p, p.building);
  }

  lemma StepKeepsInv(s: State, a: Action)
    requires Inv(s) && Enabled(s, a)
    ensures Inv(Apply(s, a))
  {
    var p := s.pool;
    match a
    case AddInLoop(addr, clock) => AddKeepsCore(p, addr);
    case Cancel(id) => if id in p.active { RemoveKeepsCore(p, id); }
    case Begin(now, sentry) => ExpireKeepsCore(p, Cut(p.timers, now, sentry));
    case RunNext =>
    case Finish(clock) => FinishKeepsInv(s, clock);
    case ReadNumber(_) =>
    case _ => ConstructKeepsInv(s, a);
  }

  /** An action that is not possible where it stands does nothing. */
  function Next(s: State, a: Action): State {
    if Enabled(s, a) then Apply(s, a) else s
  }

  /** The state after a run: any sequence of actions, so any interleaving and any callbacks. */
  function Exec(s: State, acts: seq<Action>): State
    decreases |acts|
  {
    if acts == [] then s else Exec(Next(s, acts[0]), acts[1..])
  }

  /** What every step keeps, every run keeps. */
  lemma {:induction false} RunInduction(q: State -> bool, ok: Action -> bool, s: State, acts: seq<Action>)
    requires q(s) && forall a :: a in acts ==> ok(a)
    requires forall x, a :: q(x) && ok(a) && Enabled(x, a) ==> q(Apply(x, a))
    ensures q(Exec(s, acts))
    decreases |acts|
  {
    if acts != [] {
      RunInduction(q, ok, Next(s, acts[0]), acts[1..]);
    }
  }

  lemma RunsKeepInv(s: State, acts: seq<Action>)
    requires Inv(s)
    ensures Inv(Exec(s, acts))
  {
    forall x, a | Inv(x) && Enabled(x, a) ensures Inv(Apply(x, a)) {
      StepKeepsInv(x, a);
    }
    RunInduction(x => Inv(x), a => true, s, acts);
  }

  lemma InitInv()
    ensures Inv(INIT)
  {
  }

  lemma {:induction false} ExecSplit(s: State, a: seq<Action>, b: seq<Action>)
    ensures Exec(s, a + b) == Exec(Exec(s, a), b)
    decreases |a|
  {
    if a == [] {
      assert a + b == b;
    } else {
      assert (a + b)[1..] == a[1..] + b;
      ExecSplit(Next(s, a[0]), a[1..], b);
    }
  }

  lemma ExecOne(s: State, a: Action)
    ensures Exec(s, [a]) == Next(s, a)
  {
    assert [a][1..] == [];
  }

  lemma FreshAddress(used: set<Addr>) returns (a: Addr)
    ensures a !in used
  {
    a := 0;
    var rest := used;
    while rest != {}
      invariant rest <= used && forall x :: x in used ==> x in rest || x < a
      decreases rest
    {
      var x :| x in rest;
      rest := rest - {x};
      a := if a <= x then x + 1 else a;
    }
  }

  // ---- index agreement and ownership ----

  lemma {:induction false} SameSize(ts: seq<Entry>, ids: set<Id>, heap: map<Addr, Timer>)
    requires forall e :: e in ts ==> e.addr in heap && heap[e.addr].expiration == e.time
    requires forall i, j :: 0 <= i < j < |ts| ==> ts[i] != ts[j]
    requires forall id :: id in ids <==> id.addr in heap && heap[id.addr].num == id.num
                                         && Entry(heap[id.addr].expiration, id.addr) in ts
    ensures |ts| == |ids|
  {
    if ts == [] {
      if id :| id in ids {
        assert false;
      }
    } else {
      var e := ts[0];
      var id := Id(e.addr, heap[e.addr].num);
      assert forall x :: x in ts <==> x == e || x in ts[1..];
      SameSize(ts[1..], ids - {id}, heap);
    }
  }

  lemma IndexesAgreeIn(p: Pool)
    requires Core(p)
    ensures |p.timers| == |p.active|
    ensures forall e :: e in p.timers ==> e == EntryOf(p, e.addr) && IdOf(p, e.addr) in p.active
    ensures forall e :: e in p.expired ==> e.addr in p.heap && IdOf(p, e.addr) !in p.active
    ensures forall e, f :: e in p.expired && f in p.timers ==> e.addr != f.addr
    ensures forall a :: a in p.heap ==> a in Addrs(p.timers) || a in Addrs(p.expired) || a in p.queued
  {
    forall i, j | 0 <= i < j < |p.timers| ensures p.timers[i] != p.timers[j] {
      assert Lt(p.timers[i], p.timers[j]);
    }
    SameSize(p.timers, p.active, p.heap);
    forall e | e in p.expired ensures e.addr in p.heap && IdOf(p, e.addr) !in p.active {
      assert e.addr in Addrs(p.expired);
    }
    forall e, f | e in p.expired && f in p.timers ensures e.addr != f.addr {
      assert e.addr in Addrs(p.expired);
    }
    forall a | a in p.heap && EntryOf(p, a) in p.timers ensures a in Addrs(p.timers) {
      var i :| 0 <= i < |p.timers| && p.timers[i] == EntryOf(p, a);
    }
  }

  /**
   Through every run the two indexes hold the same timers, each under its current expiration;
   a timer in flight or not yet added is in neither; every timer object has an owner, so none
   is lost; and the sizes the source asserts are equal.
   */
  lemma IndexesAgree(acts: seq<Action>)
    ensures var p := Exec(INIT, acts).pool;
            && Sorted(p.timers) && |p.timers| == |p.active|
            && (forall e :: e in p.timers ==> e.addr in p.heap && e == EntryOf(p, e.addr) && IdOf(p, e.addr) in p.active)
            && (forall id :: id in p.active ==> Live(p, id) && EntryOf(p, id.addr) in p.timers)
            && (forall e :: e in p.expired ==> e.addr in p.heap && IdOf(p, e.addr) !in p.active)
            && (forall e, f :: e in p.expired && f in p.timers ==> e.addr != f.addr)
            && (forall a :: a in p.heap ==> a in Addrs(p.timers) || a in Addrs(p.expired) || a in p.queued)
  {
    InitInv();
    RunsKeepInv(INIT, acts);
    IndexesAgreeIn(Exec(INIT, acts).pool);
  }

  // ---- cancellation is final ----

  /** id can run again only in round r, which is in progress and will delete it. */
  ghost predicate Doomed(s: State, id: Id, r: nat) {
    && id in s.pool.issued
    && (Live(s.pool, id) ==> s.calling && s.round == r && id in s.canceling && id.addr in Addrs(s.pool.expired))
  }

  /** The callbacks from position n on that are id's belong to round r. */
  predicate OnlyIn(ran: seq<(nat, Id)>, n: nat, id: Id, r: nat) {
    n <= |ran| && forall j :: n <= j < |ran| && ran[j].1 == id ==> ran[j].0 == r
  }

  /** Between s and t the timer ran, if at all, in the round that was in progress at s. */
  predicate NotInALaterRound(s: State, t: State, id: Id) {
    OnlyIn(t.ran, |s.ran|, id, s.round)
  }

  lemma {:induction false} ResetDeletes(p: Pool, now: int, marks: set<Id>, id: Id)
    requires InFlight(p)
    requires Live(p, id) ==> (id in marks || !p.heap[id.addr].repeat) && id.addr in Addrs(p.expired)
    ensures !Live(ResetAll(p, now, marks), id)
    decreases |p.expired|
  {
    if p.expired != [] {
      var q := ResetOne(p, now, marks);
      if Live(q, id) {
        var i :| 0 <= i < |p.expired| && p.expired[i].addr == id.addr;
        assert i > 0;
        assert q.expired[i - 1].addr == id.addr;
      }
      ResetDeletes(q, now, marks, id);
    }
  }

  lemma DoomedStep(s: State, a: Action, id: Id, r: nat)
    requires Inv(s) && Enabled(s, a) && Doomed(s, id, r)
    ensures Doomed(Apply(s, a), id, r)
  {
    if a.Finish? {
      ResetDeletes(s.pool, s.now, s.canceling, id);
      ResetAllFrame(s.pool, s.now, s.canceling);
    }
  }

  lemma DoomedRun(s: State, acts: seq<Action>, id: Id, r: nat)
    requires Inv(s) && Doomed(s, id, r)
    ensures var t := Exec(s, acts); Doomed(t, id, r) && OnlyIn(t.ran, |s.ran|, id, r)
  {
    forall x, a | Inv(x) && Doomed(x, id, r) && OnlyIn(x.ran, |s.ran|, id, r) && Enabled(x, a)
      ensures var y := Apply(x, a); Inv(y) && Doomed(y, id, r) && OnlyIn(y.ran, |s.ran|, id, r)
    {
      StepKeepsInv(x, a);
      DoomedStep(x, a, id, r);
    }
    RunInduction(x => Inv(x) && Doomed(x, id, r) && OnlyIn(x.ran, |s.ran|, id, r), a => true, s, acts);
  }

  /** A deleted timer stays deleted: its id never comes back, and it never runs again. */
  lemma DeletedForGood(s: State, acts: seq<Action>, id: Id)
    requires Inv(s) && id in s.pool.issued && !Live(s.pool, id)
    ensures !Live(Exec(s, acts).pool, id)
    ensures forall j :: |s.ran| <= j < |Exec(s, acts).ran| ==> Exec(s, acts).ran[j].1 != id
  {
    DoomedRun(s, acts, id, 0);
    DoomedRun(s, acts, id, 1);
  }

  /** The next k callbacks of a round; the last of them is that of the k-th timer. */
  lemma {:induction false} RunSome(s: State, k: nat)
    requires s.calling && s.next + k <= |s.pool.expired|
    ensures var t := Exec(s, seq(k, _ => RunNext));
            && t == s.(next := s.next + k, ran := t.ran) && s.ran <= t.ran
            && (k > 0 ==> |t.ran| > |s.ran|
                          && t.ran[|t.ran| - 1] == (s.round, IdOf(s.pool, s.pool.expired[s.next + k - 1].addr)))
    decreases k
  {
    var acts := seq(k, _ => RunNext);
    if k > 0 {
      assert acts[1..] == seq(k - 1, _ => RunNext);
      RunSome(Next(s, RunNext), k - 1);
    }
  }

  lemma {:induction false} ResetLeavesOthers(p: Pool, now: int, marks: set<Id>, a: Addr)
    requires forall i :: 0 <= i < |p.expired| ==> p.expired[i].addr != a
    ensures var q := ResetAll(p, now, marks); Deref(q, a) == Deref(p, a) && (a in q.heap <==> a in p.heap)
    decreases |p.expired|
  {
    if p.expired != [] {
      ResetLeavesOthers(ResetOne(p, now, marks), now, marks, a);
    }
  }

  /** The rest of the round in progress. */
  lemma EndRound(s: State) returns (acts: seq<Action>)
    requires Inv(s) && s.calling
    ensures forall x :: x in acts ==> x.RunNext? || x.Finish?
    ensures var t := Exec(s, acts);
            && !t.calling && t.pool == ResetAll(s.pool, s.now, s.canceling)
            && t.round == s.round && s.ran <= t.ran
  {
    var n := |s.pool.expired| - s.next;
    var runs := seq(n, _ => RunNext);
    RunSome(s, n);
    var last := Exec(s, runs);
    assert last.pool == s.pool && last.now == s.now && last.canceling == s.canceling && Enabled(last, Finish(0));
    ExecOne(last, Finish(0));
    ExecSplit(s, runs, [Finish(0)]);
    acts := runs + [Finish(0)];
    assert Exec(s, acts) == FinishRound(last, 0);
  }

  /** Complete the round in progress, if any; a timer that is not in flight is not touched by that. */
  lemma CloseRound(s: State, a: Addr) returns (acts: seq<Action>)
    requires Inv(s) && a in s.pool.heap && a !in Addrs(s.pool.expired)
    ensures forall x :: x in acts ==> x.RunNext? || x.Finish?
    ensures var t := Exec(s, acts);
            && !t.calling && t.pool.queued == s.pool.queued && Deref(t.pool, a) == Deref(s.pool, a) && a in t.pool.heap
            && t.round == s.round && s.ran <= t.ran
  {
    if s.calling {
      forall i | 0 <= i < |s.pool.expired| ensures s.pool.expired[i].addr != a {
        assert s.pool.expired[i].addr in Addrs(s.pool.expired);
      }
      ResetLeavesOthers(s.pool, s.now, s.canceling, a);
      ResetAllFrame(s.pool, s.now, s.canceling);
      acts := EndRound(s);
    } else {
      acts := [];
    }
  }

  /** A timer in the index can be made to run in the next round. */
  lemma IndexedCanRun(s: State, a: Addr) returns (acts: seq<Action>)
    requires Sorted(s.pool.timers) && !s.calling && EntryOf(s.pool, a) in s.pool.timers
    ensures var t := Exec(s, acts);
            s.ran <= t.ran && |t.ran| > |s.ran| && t.ran[|t.ran| - 1] == (s.round + 1, IdOf(s.pool, a))
  {
    var p, e := s.pool, EntryOf(s.pool, a);
    var sentry := FreshAddress(p.heap.Keys + p.building.Keys);
    assert sentry !in p.heap && sentry !in p.building;
    CutTakesAllDue(p.timers, e.time, sentry);
    var i :| 0 <= i < |p.timers| && p.timers[i] == e;
    var begin := Begin(e.time, sentry);
    var t := Next(s, begin);
    RunSome(t, i + 1);
    var runs := seq(i + 1, _ => RunNext);
    acts := [begin] + runs;
    ExecOne(s, begin);
    ExecSplit(s, [begin], runs);
  }

  lemma AddedCanRun(s: State, a: Addr) returns (acts: seq<Action>)
    requires !s.calling && a in s.pool.queued && Sorted(AddTimerInLoop(s, a, 0).pool.timers)
    ensures var t := Exec(s, acts);
            s.ran <= t.ran && |t.ran| > |s.ran| && t.ran[|t.ran| - 1] == (s.round + 1, IdOf(s.pool, a))
  {
    var rest := IndexedCanRun(AddTimerInLoop(s, a, 0), a);
    ExecOne(s, AddInLoop(a, 0));
    ExecSplit(s, [AddInLoop(a, 0)], rest);
    acts := [AddInLoop(a, 0)] + rest;
  }

  lemma AddKeepsSorted(p: Pool, a: Addr)
    requires Core(p) && a in p.queued
    ensures Sorted(Insert(Dequeue(p, a), a).timers)
  {
    AddKeepsCore(p, a);
  }

  /** A timer that is still queued can be made to run, in a round after the present one. */
  lemma QueuedRunsLater(s: State, id: Id) returns (acts: seq<Action>)
    requires Inv(s) && Live(s.pool, id) && id.addr in s.pool.queued
    ensures !NotInALaterRound(s, Exec(s, acts), id)
  {
    var a := id.addr;
    var close := CloseRound(s, a);
    var s1 := Exec(s, close);
    RunsKeepInv(s, close);
    AddKeepsSorted(s1.pool, a);
    var rest := AddedCanRun(s1, a);
    ExecSplit(s, close, rest);
    acts := close + rest;
    var t := Exec(s, acts);
    assert t.ran[|t.ran| - 1] == (s.round + 1, id);
  }

  /**
   Cancellation, from outside or from any callback: after it the timer runs in no later round,
   whatever happens, exactly when its addTimerInLoop has already run.  (A cancel that overtakes
   the queued insertion finds nothing, and the insertion still comes.)
   */
  lemma CancelIsFinalIff(before: seq<Action>, id: Id)
    requires id in Exec(INIT, before).pool.issued
    ensures var s := Exec(INIT, before);
            var t := Next(s, Cancel(id));
            (forall acts :: NotInALaterRound(t, Exec(t, acts), id))
            <==> !(Live(s.pool, id) && id.addr in s.pool.queued)
  {
    var s := Exec(INIT, before);
    var t := Next(s, Cancel(id));
    InitInv();
    RunsKeepInv(INIT, before);
    StepKeepsInv(s, Cancel(id));
    if Live(s.pool, id) && id.addr in s.pool.queued {
      var acts := QueuedRunsLater(t, id);
      assert !NotInALaterRound(t, Exec(t, acts), id);
    } else {
      assert Doomed(t, id, t.round);
      forall acts ensures NotInALaterRound(t, Exec(t, acts), id) {
        DoomedRun(t, acts, id, t.round);
      }
    }
  }

  // ---- a stale id is harmless ----

  /** Two states that differ at most in id being marked for cancellation. */
  predicate SameUpToMark(s: State, t: State, id: Id) {
    t == s || t == s.(canceling := s.canceling + {id})
  }

  lemma {:induction false} ResetIgnoresMark(p: Pool, now: int, marks: set<Id>, id: Id)
    requires InFlight(p) && forall a :: a in p.heap ==> IdOf(p, a) != id
    ensures ResetAll(p, now, marks + {id}) == ResetAll(p, now, marks)
    decreases |p.expired|
  {
    if p.expired != [] {
      assert ResetOne(p, now, marks + {id}) == ResetOne(p, now, marks);
      ResetIgnoresMark(ResetOne(p, now, marks), now, marks, id);
    }
  }

  lemma StaleStep(s: State, t: State, a: Action, id: Id)
    requires Inv(s) && !Live(s.pool, id) && SameUpToMark(s, t, id)
    ensures SameUpToMark(Next(s, a), Next(t, a), id)
  {
    if t != s && Enabled(s, a) {
      if a.Finish? {
        ResetIgnoresMark(s.pool, s.now, s.canceling, id);
      } else if a.Cancel? {
        assert s.canceling + {id} + {a.id} == s.canceling + {a.id} + {id};
      }
    }
  }

  lemma StaysStale(s: State, a: Action, id: Id)
    requires Inv(s) && id in s.pool.issued && !Live(s.pool, id)
    ensures id in Next(s, a).pool.issued && !Live(Next(s, a).pool, id)
  {
    ExecOne(s, a);
    DeletedForGood(s, [a], id);
    DoomedRun(s, [a], id, 0);
  }

  lemma {:induction false} StaleRun(s: State, t: State, acts: seq<Action>, id: Id)
    requires Inv(s) && id in s.pool.issued && !Live(s.pool, id) && SameUpToMark(s, t, id)
    ensures SameUpToMark(Exec(s, acts), Exec(t, acts), id)
    decreases |acts|
  {
    if acts != [] {
      var a := acts[0];
      StaleStep(s, t, a, id);
      StaysStale(s, a, id);
      RunsKeepInv(s, [a]);
      ExecOne(s, a);
      StaleRun(Next(s, a), Next(t, a), acts[1..], id);
    }
  }

  /**
   Cancelling a stale id, even when its address is in use again, changes nothing that happens
   afterwards: every later state is the same but for the mark itself.
   */
  lemma StaleIdIsHarmless(before: seq<Action>, id: Id, after: seq<Action>)
    requires var s := Exec(INIT, before); id in s.pool.issued && !Live(s.pool, id)
    ensures var s := Exec(INIT, before); SameUpToMark(Exec(s, after), Exec(Next(s, Cancel(id)), after), id)
  {
    var s := Exec(INIT, before);
    InitInv();
    RunsKeepInv(INIT, before);
    StaleRun(s, Next(s, Cancel(id)), after, id);
  }

  // ---- reading the number back ----

  /** A live repeating timer that the round in progress, if any, will not delete. */
  ghost predicate Outlives(s: State, id: Id) {
    && Live(s.pool, id) && s.pool.heap[id.addr].repeat
    && !(s.calling && id in s.canceling && id.addr in Addrs(s.pool.expired))
  }

  lemma {:induction false} ResetKeepsRepeating(p: Pool, now: int, marks: set<Id>, id: Id)
    requires InFlight(p) && Live(p, id) && p.heap[id.addr].repeat && !(id in marks && id.addr in Addrs(p.expired))
    ensures var q := ResetAll(p, now, marks); Live(q, id) && q.heap[id.addr].repeat
    decreases |p.expired|
  {
    if p.expired != [] {
      assert p.expired[0].addr in Addrs(p.expired);
      RestOfAddrs(p);
      var q := ResetOne(p, now, marks);
      assert q.expired == p.expired[1..];
      ResetKeepsRepeating(q, now, marks, id);
    }
  }

  lemma OutlivesStep(s: State, a: Action, id: Id)
    requires Inv(s) && Enabled(s, a) && Outlives(s, id) && a != Cancel(id)
    ensures Outlives(Apply(s, a), id)
  {
    match a
    case Finish(_) => ResetKeepsRepeating(s.pool, s.now, s.canceling, id);
    case _ =>
  }

  lemma OutlivesRun(s: State, acts: seq<Action>, id: Id)
    requires Inv(s) && Outlives(s, id) && Cancel(id) !in acts
    ensures Outlives(Exec(s, acts), id)
  {
    forall x, a | Inv(x) && Outlives(x, id) && a != Cancel(id) && Enabled(x, a)
      ensures Inv(Apply(x, a)) && Outlives(Apply(x, a), id)
    {
      StepKeepsInv(x, a);
      OutlivesStep(x, a, id);
    }
    RunInduction(x => Inv(x) && Outlives(x, id), a => a != Cancel(id), s, acts);
  }

  /** A one-shot or marked timer in flight dies with its round. */
  lemma FlightDies(s: State, id: Id) returns (acts: seq<Action>)
    requires Inv(s) && Live(s.pool, id) && !Outlives(s, id) && id.addr in Addrs(s.pool.expired)
    ensures Cancel(id) !in acts && !Live(Exec(s, acts).pool, id)
  {
    ResetDeletes(s.pool, s.now, s.canceling, id);
    acts := EndRound(s);
  }

  /** A one-shot timer in the index can be made to fly, and die. */
  lemma IndexedDies(s: State, id: Id) returns (acts: seq<Action>)
    requires Inv(s) && Live(s.pool, id) && !s.pool.heap[id.addr].repeat
    requires !s.calling && EntryOf(s.pool, id.addr) in s.pool.timers
    ensures Cancel(id) !in acts && !Live(Exec(s, acts).pool, id)
  {
    var p, e := s.pool, EntryOf(s.pool, id.addr);
    var sentry := FreshAddress(p.heap.Keys + p.building.Keys);
    assert sentry !in p.heap && sentry !in p.building;
    CutTakesAllDue(p.timers, e.time, sentry);
    var i :| 0 <= i < |p.timers| && p.timers[i] == e;
    var begin := Begin(e.time, sentry);
    StepKeepsInv(s, begin);
    var t := Next(s, begin);
    assert t.pool.expired[i].addr == id.addr;
    var rest := FlightDies(t, id);
    ExecOne(s, begin);
    ExecSplit(s, [begin], rest);
    acts := [begin] + rest;
  }

  lemma QueuedDies(s: State, id: Id) returns (acts: seq<Action>)
    requires Inv(s) && Live(s.pool, id) && !s.pool.heap[id.addr].repeat && !s.calling && id.addr in s.pool.queued
    ensures Cancel(id) !in acts && !Live(Exec(s, acts).pool, id)
  {
    var add := AddInLoop(id.addr, 0);
    StepKeepsInv(s, add);
    var t := Next(s, add);
    assert EntryOf(t.pool, id.addr) in t.pool.timers;
    var rest := IndexedDies(t, id);
    ExecOne(s, add);
    ExecSplit(s, [add], rest);
    acts := [add] + rest;
  }

  lemma SomeRunDeletes(s: State, id: Id) returns (acts: seq<Action>)
    requires Inv(s) && !Outlives(s, id)
    ensures Cancel(id) !in acts && !Live(Exec(s, acts).pool, id)
  {
    if !Live(s.pool, id) {
      acts := [];
    } else if id.addr in Addrs(s.pool.expired) {
      acts := FlightDies(s, id);
    } else {
      var close := CloseRound(s, id.addr);
      var t := Exec(s, close);
      RunsKeepInv(s, close);
      var rest;
      if id.addr in t.pool.queued {
        rest := QueuedDies(t, id);
      } else {
        rest := IndexedDies(t, id);
      }
      ExecSplit(s, close, rest);
      acts := close + rest;
    }
  }

  lemma ReadsOwnNumberIff(p: Pool, id: Id)
    ensures NumberRead(p, id) == Some(id) <==> Live(p, id)
  {
  }

  /**
   addTimer reads the number after it has handed the timer over.  Whatever the loop does meanwhile, as
   long as nobody cancels a timer whose id is not out yet, it gets the timer's own number if and only
   if the timer is live, repeats, and is not about to be deleted by the round in progress.  A
   one-shot timer can be run and deleted first.
   */
  lemma NumberComesBackIff(before: seq<Action>, id: Id)
    requires id in Exec(INIT, before).unread
    ensures var s := Exec(INIT, before);
            (forall acts :: Cancel(id) !in acts ==> NumberRead(Exec(s, acts).pool, id) == Some(id)) <==> Outlives(s, id)
  {
    var s := Exec(INIT, before);
    InitInv();
    RunsKeepInv(INIT, before);
    if Outlives(s, id) {
      forall acts | Cancel(id) !in acts ensures NumberRead(Exec(s, acts).pool, id) == Some(id) {
        OutlivesRun(s, acts, id);
        ReadsOwnNumberIff(Exec(s, acts).pool, id);
      }
    } else {
      var acts := SomeRunDeletes(s, id);
      ReadsOwnNumberIff(Exec(s, acts).pool, id);
    }
  }

  // ---- alarm coverage ----

  function Max(a: int, b: int): int {
    if a < b then b else a
  }

  /** The timerfd is due no later than the first timer, up to the floor. */
  predicate Covered(timers: seq<Entry>, alarm: Alarm) {
    timers != [] ==> alarm.Armed? && alarm.deadline <= Max(timers[0].time, alarm.setAt + FLOOR)
  }

  /** The clock reads positive and intervals are not negative. */
  predicate Sane(a: Action) {
    && (a.Begin? ==> a.now > 0)
    && (a.Load? ==> a.interval >= 0)
  }

  ghost predicate Forward(p: Pool) {
    forall a :: a in p.heap ==> p.heap[a].interval >= 0
  }

  /** During a round only a first timer at or before 0 needs the cover: reset sets it for the others. */
  predicate CoveredEarly(timers: seq<Entry>, alarm: Alarm) {
    timers != [] && timers[0].time <= 0 ==> Covered(timers, alarm)
  }

  ghost predicate AlarmInv(s: State) {
    && Forward(s.pool)
    && (if s.calling then s.now > 0 && CoveredEarly(s.pool.timers, s.alarm) else Covered(s.pool.timers, s.alarm))
  }

  lemma {:induction false} ResetKeepsAlarm(p: Pool, now: int, marks: set<Id>, alarm: Alarm)
    requires now > 0 && Forward(p) && CoveredEarly(p.timers, alarm)
    ensures var q := ResetAll(p, now, marks); Forward(q) && CoveredEarly(q.timers, alarm)
    decreases |p.expired|
  {
    if p.expired != [] {
      ResetKeepsAlarm(ResetOne(p, now, marks), now, marks, alarm);
    }
  }

  lemma AlarmCancel(p: Pool, id: Id, alarm: Alarm)
    requires Core(p) && id in p.active
    ensures Covered(p.timers, alarm) ==> Covered(Remove(p, id).timers, alarm)
    ensures CoveredEarly(p.timers, alarm) ==> CoveredEarly(Remove(p, id).timers, alarm)
  {
    var ts := Remove(p, id).timers;
    if ts != [] {
      assert ts[0] in p.timers;
      assert p.timers[0] == ts[0] || Lt(p.timers[0], ts[0]);
    }
  }

  lemma AlarmFinish(s: State, clock: int)
    requires AlarmInv(s) && s.calling
    ensures AlarmInv(FinishRound(s, clock))
  {
    ResetKeepsAlarm(s.pool, s.now, s.canceling, s.alarm);
    var ts := ResetAll(s.pool, s.now, s.canceling).timers;
    if ts != [] {
      TimespecLosesNothing(ts[0].time, clock);
    }
  }

  lemma AlarmStep(s: State, a: Action)
    requires Inv(s) && Enabled(s, a) && AlarmInv(s) && Sane(a)
    ensures AlarmInv(Apply(s, a))
  {
    match a
    case AddInLoop(addr, clock) => TimespecLosesNothing(Deref(s.pool, addr).expiration, clock);
    case Cancel(id) => if id in s.pool.active { AlarmCancel(s.pool, id, s.alarm); }
    case Begin(now, sentry) => CutTakesAllDue(s.pool.timers, now, sentry);
    case Finish(clock) => AlarmFinish(s, clock);
    case _ =>
  }

  /** Whenever handleRead is not in progress and a timer waits, the timerfd covers the first one. */
  lemma AlarmCoversFirstTimer(acts: seq<Action>)
    requires forall a :: a in acts ==> Sane(a)
    ensures var s := Exec(INIT, acts);
            !s.calling && s.pool.timers != [] ==>
            s.alarm.Armed? && s.alarm.deadline <= Max(s.pool.timers[0].time, s.alarm.setAt + FLOOR)
  {
    InitInv();
    forall x, a | Inv(x) && AlarmInv(x) && Sane(a) && Enabled(x, a) ensures Inv(Apply(x, a)) && AlarmInv(Apply(x, a)) {
      StepKeepsInv(x, a);
      AlarmStep(x, a);
    }
    RunInduction(x => Inv(x) && AlarmInv(x), a => Sane(a), INIT, acts);
  }

  /** Each operation sets the alarm for the timer that is then the first, or leaves it alone. */
  lemma AlarmIsSetFor(s: State, a: Action)
    requires Inv(s) && Enabled(s, a)
    ensures var t := Next(s, a);
            var first := t.pool.timers;
            match a
            case AddInLoop(addr, clock) =>
              t.alarm == if first != s.pool.timers && first[0].addr == addr && (s.pool.timers == [] || first[0].time < s.pool.timers[0].time)
                         then Armed(Max(first[0].time, clock + FLOOR), clock) else s.alarm
            case Finish(clock) =>
              t.alarm == if first != [] && first[0].time > 0 then Armed(Max(first[0].time, clock + FLOOR), clock) else s.alarm
            case Begin(_, _) => t.alarm == Off
            case _ => t.alarm == s.alarm
  {
    var first := Next(s, a).pool.timers;
    match a
    case AddInLoop(addr, clock) => TimespecLosesNothing(Deref(s.pool, addr).expiration, clock);
    case Finish(clock) => if first != [] { TimespecLosesNothing(first[0].time, clock); }
    case _ =>
  }

  // ---- the life of a timer ----

  lemma {:induction false} ResetKeepsEntries(p: Pool, now: int, marks: set<Id>)
    ensures var q := ResetAll(p, now, marks); (forall e :: e in p.timers ==> e in q.timers) && p.active <= q.active
    decreases |p.expired|
  {
    if p.expired != [] {
      ResetKeepsEntries(ResetOne(p, now, marks), now, marks);
    }
  }

  /** The timer will expire again at the given time, and is in both indexes for it. */
  ghost predicate Restarted(p: Pool, q: Pool, a: Addr, time: int)
    requires a in p.heap
  {
    && a in q.heap && q.heap[a] == p.heap[a].(expiration := time)
    && Entry(time, a) in q.timers && IdOf(p, a) in q.active
  }

  lemma {:induction false} ResetPutsBack(p: Pool, now: int, marks: set<Id>, a: Addr)
    requires InFlight(p) && a in Addrs(p.expired)
    ensures var q := ResetAll(p, now, marks);
            if p.heap[a].repeat && IdOf(p, a) !in marks then Restarted(p, q, a, now + p.heap[a].interval) else a !in q.heap
    decreases |p.expired|
  {
    var q := ResetOne(p, now, marks);
    RestOfAddrs(p);
    ResetOneKeepsInFlight(p, now, marks);
    if p.expired[0].addr == a {
      ResetLeavesOthers(q, now, marks, a);
      ResetKeepsEntries(q, now, marks);
    } else {
      assert Deref(q, a) == Deref(p, a);
      ResetPutsBack(q, now, marks, a);
    }
  }

  lemma ResetDecides(p: Pool, now: int, marks: set<Id>, a: Addr)
    requires InFlight(p) && a in p.heap
    ensures var q := ResetAll(p, now, marks);
            if a !in Addrs(p.expired) then a in q.heap && q.heap[a] == p.heap[a]
            else if p.heap[a].repeat && IdOf(p, a) !in marks then Restarted(p, q, a, now + p.heap[a].interval)
            else a !in q.heap
  {
    if a in Addrs(p.expired) {
      ResetPutsBack(p, now, marks, a);
    } else {
      forall i | 0 <= i < |p.expired| ensures p.expired[i].addr != a {
        assert p.expired[i].addr in Addrs(p.expired);
      }
      ResetLeavesOthers(p, now, marks, a);
    }
  }

  lemma CancelSpares(s: State, other: Id, id: Id)
    requires Live(s.pool, id) && Core(s.pool)
    ensures var q := CancelInLoop(s, other).pool;
            && (Live(q, id) <==> !(other == id && id in s.pool.active))
            && (Live(q, id) ==> q.heap[id.addr] == s.pool.heap[id.addr])
  {
  }

  lemma AddIndexes(s: State, addr: Addr, clock: int, id: Id)
    requires Live(s.pool, id)
    ensures var q := AddTimerInLoop(s, addr, clock).pool;
            && q.heap == s.pool.heap
            && (addr == id.addr ==> Restarted(s.pool, q, addr, s.pool.heap[addr].expiration))
  {
  }

  lemma RestSpares(s: State, a: Action, id: Id)
    requires Live(s.pool, id) && Inv(s) && Enabled(s, a) && !a.Finish? && !a.Cancel? && !a.AddInLoop?
    ensures var q := Apply(s, a).pool; Live(q, id) && q.heap[id.addr] == s.pool.heap[id.addr]
  {
  }

  /**
   What one operation does to a timer: it dies by a cancel that finds it in the index, or at the
   end of a round that ran it unless it repeats and is unmarked; that restarts it from the reading
   of the round; and otherwise it stays as it is.
   */
  lemma TimerLife(s: State, a: Action, id: Id)
    requires Inv(s) && Enabled(s, a) && Live(s.pool, id)
    ensures var p, q := s.pool, Next(s, a).pool;
            var ends := a.Finish? && id.addr in Addrs(p.expired);
            && (Live(q, id) <==> !(a == Cancel(id) && id in p.active)
                                 && (ends ==> p.heap[id.addr].repeat && id !in s.canceling))
            && (Live(q, id) && ends ==> Restarted(p, q, id.addr, s.now + p.heap[id.addr].interval))
            && (Live(q, id) && !ends ==> q.heap[id.addr] == p.heap[id.addr])
            && (a.AddInLoop? && a.addr == id.addr ==> Restarted(p, q, id.addr, p.heap[id.addr].expiration))
  {
    match a
    case Finish(_) => ResetDecides(s.pool, s.now, s.canceling, id.addr);
    case Cancel(other) => CancelSpares(s, other, id);
    case AddInLoop(addr, clock) => AddIndexes(s, addr, clock, id);
    case _ => RestSpares(s, a, id);
  }

  /** It starts as it was asked for. */
  lemma LoadMakes(s: State, a: Action)
    requires a.Load? && Enabled(s, a)
    ensures var q := Next(s, a).pool;
            && a.addr in q.heap && q.heap[a.addr] == Timer(a.when, a.interval, a.repeat, s.pool.created)
            && a.addr in q.queued && IdOf(q, a.addr) in q.issued && IdOf(q, a.addr) in Next(s, a).unread
  {
  }

  /** The timer is in flight in a round read at now, and marked exactly if it was cancelled since p. */
  ghost predicate Flying(p: Pool, now: int, x: State, id: Id, cancelled: bool) {
    && Inv(x) && x.calling && x.now == now && id.addr in Addrs(x.pool.expired) && Live(x.pool, id)
    && id.addr in p.heap && x.pool.heap[id.addr] == p.heap[id.addr]
    && (id in x.canceling <==> cancelled)
  }

  lemma FlyingStep(p: Pool, now: int, x: State, a: Action, id: Id, cancelled: bool)
    requires Flying(p, now, x, id, cancelled) && !a.Finish?
    ensures Flying(p, now, Next(x, a), id, cancelled || a == Cancel(id))
  {
    if Enabled(x, a) {
      StepKeepsInv(x, a);
      TimerLife(x, a, id);
      assert id !in x.pool.active;
    }
  }

  lemma {:induction false} FlyingRun(p: Pool, now: int, x: State, acts: seq<Action>, id: Id, cancelled: bool)
    requires Flying(p, now, x, id, cancelled) && forall a :: a in acts ==> !a.Finish?
    ensures Flying(p, now, Exec(x, acts), id, cancelled || Cancel(id) in acts)
    decreases |acts|
  {
    if acts != [] {
      assert acts == [acts[0]] + acts[1..];
      FlyingStep(p, now, x, acts[0], id, cancelled);
      FlyingRun(p, now, Next(x, acts[0]), acts[1..], id, cancelled || acts[0] == Cancel(id));
    }
  }

  /** A round that is read at now takes the timer. */
  predicate Takes(s: State, now: int, sentry: Addr, id: Id) {
    && Enabled(s, Begin(now, sentry)) && Live(s.pool, id)
    && EntryOf(s.pool, id.addr) in s.pool.timers[..Cut(s.pool.timers, now, sentry)]
  }

  /** The callbacks of the round that x began, with whatever they do, up to its end. */
  predicate IsRound(x: State, acts: seq<Action>, clock: int) {
    (forall a :: a in acts ==> !a.Finish?) && Enabled(Exec(x, acts), Finish(clock))
  }

  /** Between p and q the timer was restarted from now if it repeats and was not cancelled, and else deleted. */
  ghost predicate Decided(p: Pool, now: int, q: Pool, id: Id, cancelled: bool) {
    && id.addr in p.heap
    && (Live(q, id) <==> p.heap[id.addr].repeat && !cancelled)
    && (Live(q, id) ==> Restarted(p, q, id.addr, now + p.heap[id.addr].interval))
  }

  lemma TakenFlies(s: State, now: int, sentry: Addr, id: Id)
    requires Inv(s) && Takes(s, now, sentry, id)
    ensures Flying(s.pool, now, Next(s, Begin(now, sentry)), id, false)
  {
    StepKeepsInv(s, Begin(now, sentry));
    var k := Cut(s.pool.timers, now, sentry);
    var i :| 0 <= i < k && s.pool.timers[..k][i] == EntryOf(s.pool, id.addr);
    assert Next(s, Begin(now, sentry)).pool.expired[i].addr == id.addr;
  }

  lemma FlightEnds(p: Pool, now: int, x: State, clock: int, id: Id, cancelled: bool)
    requires Flying(p, now, x, id, cancelled) && Enabled(x, Finish(clock))
    ensures Decided(p, now, Next(x, Finish(clock)).pool, id, cancelled)
  {
    TimerLife(x, Finish(clock), id);
  }

  lemma RoundDecides(s: State, now: int, sentry: Addr, acts: seq<Action>, clock: int, id: Id)
    requires Inv(s) && Takes(s, now, sentry, id) && IsRound(Next(s, Begin(now, sentry)), acts, clock)
    ensures Decided(s.pool, now, Next(Exec(Next(s, Begin(now, sentry)), acts), Finish(clock)).pool, id, Cancel(id) in acts)
  {
    TakenFlies(s, now, sentry, id);
    FlyingRun(s.pool, now, Next(s, Begin(now, sentry)), acts, id, false);
    FlightEnds(s.pool, now, Exec(Next(s, Begin(now, sentry)), acts), clock, id, Cancel(id) in acts);
  }

  /**
   A timer that a round takes is put back at the end of that round, for the reading at its top plus
   the interval, if and only if it repeats and no cancel named it during the round, from a callback
   or in between; otherwise it is deleted.
   */
  lemma PutBackIff(before: seq<Action>, now: int, sentry: Addr, acts: seq<Action>, clock: int, id: Id)
    requires Takes(Exec(INIT, before), now, sentry, id)
    requires IsRound(Next(Exec(INIT, before), Begin(now, sentry)), acts, clock)
    ensures var s := Exec(INIT, before);
            Decided(s.pool, now, Next(Exec(Next(s, Begin(now, sentry)), acts), Finish(clock)).pool, id, Cancel(id) in acts)
  {
    InitInv();
    RunsKeepInv(INIT, before);
    RoundDecides(Exec(INIT, before), now, sentry, acts, clock, id);
  }

  // ---- the class ----

  /** What the pointers that the operations follow rest on. */
  lemma PointersLive(p: Pool)
    requires Core(p)
    ensures Sorted(p.timers) && |p.timers| == |p.active| && InFlight(p)
    ensures forall e :: e in p.timers ==> e.addr in p.heap
    ensures forall id :: id in p.active ==> id.addr in p.heap && Entry(p.heap[id.addr].expiration, id.addr) in p.timers
    ensures forall a :: a in p.queued ==> a in p.heap && EntryOf(p, a) !in p.timers && IdOf(p, a) !in p.active
  {
    IndexesAgreeIn(p);
  }

  lemma ResetOneKeepsInFlight(p: Pool, now: int, marks: set<Id>)
    requires InFlight(p) && p.expired != []
    ensures InFlight(ResetOne(p, now, marks))
  {
  }

  /** The entries the first loop of getExpired copies are those up to the cut. */
  lemma CutIsReached(ts: seq<Entry>, now: int, sentry: Addr, k: nat)
    requires Sorted(ts) && k <= |ts|
    requires var end := LowerBound(ts, Entry(now, sentry));
             && (forall i :: 0 <= i < k ==> end == |ts| || ts[i].time <= ts[end].time)
             && (k < |ts| ==> end < |ts| && ts[k].time > ts[end].time)
    ensures k == Cut(ts, now, sentry)
  {
    var end := LowerBound(ts, Entry(now, sentry));
    var c := Cut(ts, now, sentry);
    if end < |ts| {
      assert forall i :: 0 <= i < k ==> ts[i].time <= ts[end].time;
    }
  }

  predicate FromCallback(a: Action) {
    a.Alloc? || a.Load? || a.ReadNumber? || a.Bump? || a.AddInLoop? || a.Cancel?
  }

  /** What callbacks leave alone: the round, its batch and the identity of the timers in it. */
  ghost predicate SameRound(s: State, t: State) {
    && t.calling == s.calling && t.next == s.next && t.round == s.round && t.ran == s.ran && t.now == s.now
    && t.pool.expired == s.pool.expired
    && forall e :: e in s.pool.expired ==> IdOf(t.pool, e.addr) == IdOf(s.pool, e.addr)
  }

  lemma CallbackKeepsRound(s: State, a: Action)
    requires Inv(s) && FromCallback(a)
    ensures SameRound(s, Next(s, a))
  {
    forall e | e in s.pool.expired ensures IdOf(Next(s, a).pool, e.addr) == IdOf(s.pool, e.addr) {
      assert e.addr in Addrs(s.pool.expired) && e.addr in s.pool.heap;
    }
  }

  /** The record of a round that runs the given timers. */
  function Called(round: nat, p: Pool, batch: seq<Entry>): seq<(nat, Id)> {
    seq(|batch|, i requires 0 <= i < |batch| => (round, IdOf(p, batch[i].addr)))
  }

  /** One callback further into the round that s began. */
  lemma SameRoundOn(s: State, x: State, y: State)
    requires SameRound(s.(next := x.next, ran := x.ran), x) && x.next < |x.pool.expired|
    requires SameRound(RunCallback(x), y)
    ensures SameRound(s.(next := y.next, ran := y.ran), y) && y.next == x.next + 1
    ensures y.ran == x.ran + [(s.round, IdOf(s.pool, s.pool.expired[x.next].addr))]
  {
    assert s.pool.expired[x.next] in s.pool.expired;
  }

  /** x is where acts led from s, in the round that s began, after the callbacks of the timers up to next. */
  ghost predicate InRound(s: State, x: State, acts: seq<Action>) {
    && x == Exec(s, acts) && SameRound(s.(next := x.next, ran := x.ran), x) && x.next <= |x.pool.expired|
    && x.ran == s.ran + Called(s.round, s.pool, s.pool.expired[..x.next])
  }

  lemma BatchStep(s: State, x: State, y: State, acts: seq<Action>, callback: seq<Action>)
    requires InRound(s, x, acts) && x.next < |x.pool.expired|
    requires y == Exec(x, [RunNext] + callback) && SameRound(RunCallback(x), y)
    ensures InRound(s, y, acts + ([RunNext] + callback)) && y.next == x.next + 1
  {
    CalledOneMore(s.round, s.pool, s.pool.expired, x.next);
    ExecSplit(s, acts, [RunNext] + callback);
    SameRoundOn(s, x, y);
  }

  lemma CalledOneMore(round: nat, p: Pool, batch: seq<Entry>, k: nat)
    requires k < |batch|
    ensures Called(round, p, batch[..k + 1]) == Called(round, p, batch[..k]) + [(round, IdOf(p, batch[k].addr))]
  {
  }

  lemma BeginPossible(s: State, now: int, sentry: Addr)
    requires Inv(s) && Enabled(s, Begin(now, sentry))
    ensures Sorted(s.pool.timers) && s.pool.expired == [] && forall e :: e in s.pool.timers ==> e.addr in s.pool.heap
    ensures Inv(BeginRound(s, now, sentry))
  {
    StepKeepsInv(s, Begin(now, sentry));
  }

  lemma ComposeRound(s: State, begin: Action, acts: seq<Action>, finish: Action)
    ensures Exec(s, [begin] + acts + [finish]) == Next(Exec(Next(s, begin), acts), finish)
  {
    ExecSplit(s, [begin] + acts, [finish]);
    ExecSplit(s, [begin], acts);
    ExecOne(s, begin);
    ExecOne(Exec(Next(s, begin), acts), finish);
  }

  class TimerQueue {
    var heap: map<Addr, Timer>
    var building: map<Addr, int>
    var created: int
    var queued: set<Addr>
    var timers: seq<Entry>
    var active: set<Id>
    var canceling: set<Id>
    var calling: bool
    var expired: seq<Entry>
    var next: nat
    var now: int
    var alarm: Alarm
    ghost var issued: set<Id>
    ghost var round: nat
    ghost var ran: seq<(nat, Id)>
    var unread: set<Id>
    ghost var got: seq<(Id, Option<Id>)>

    ghost function Timers(): Pool
      reads this
    {
      Pool(heap, building, created, issued, queued, timers, active, expired)
    }

    ghost function Abs(): State
      reads this
    {
      State(Timers(), canceling, calling, next, now, alarm, round, ran, unread, got)
    }

    constructor ()
      ensures Abs() == INIT && Inv(Abs())
    {
      heap, building, created, queued, timers, active := map[], map[], 0, {}, [], {};
      canceling, calling, expired, next, now, alarm := {}, false, [], 0, 0, Off;
      issued, round, ran, unread, got := {}, 0, [], {}, [];
    }

    /** insert: into both indexes; earliest says that the alarm must be set. */
    method InsertTimer(a: Addr) returns (earliest: bool)
      requires a in heap && EntryOf(Timers(), a) !in timers && IdOf(Timers(), a) !in active
      modifies this`timers, this`active
      ensures Timers() == Insert(old(Timers()), a) && earliest == Earliest(old(Timers()), a)
    {
      var when := heap[a].expiration;
      earliest := timers == [] || when < timers[0].time;
      assert Entry(when, a) !in timers;                // result.second
      timers := InsertSorted(timers, Entry(when, a));
      assert Id(a, heap[a].num) !in active;            // result.second
      active := active + {Id(a, heap[a].num)};
    }

    method AddTimer(a: Addr, clock: int)
      requires a in heap && EntryOf(Timers(), a) !in timers && IdOf(Timers(), a) !in active
      modifies this`queued, this`timers, this`active, this`alarm
      ensures Abs() == AddTimerInLoop(old(Abs()), a, clock)
    {
      queued := queued - {a};
      var earliest := InsertTimer(a);
      if earliest {
        alarm := Arm(heap[a].expiration, clock);
      }
    }

    method Cancel(id: Id)
      requires Inv(Abs())
      modifies this`timers, this`heap, this`active, this`canceling
      ensures Abs() == CancelInLoop(old(Abs()), id)
    {
      PointersLive(Timers());
      assert |timers| == |active|;
      if id in active {
        var e := Entry(heap[id.addr].expiration, id.addr);
        assert e in timers;                            // n == 1
        timers := Erase(timers, e);
        heap := heap - {id.addr};
        active := active - {id};
      } else if calling {
        canceling := canceling + {id};
      }
    }

    /** The first loop of getExpired copies the entries up to the cut. */
    method CopyExpired(now: int, sentry: Addr)
      requires Sorted(timers) && expired == []
      modifies this`expired
      ensures expired == timers[..Cut(timers, now, sentry)]
    {
      var end := LowerBound(timers, Entry(now, sentry));
      var k := 0;
      while k < |timers| && (end == |timers| || timers[k].time <= timers[end].time)
        invariant k <= |timers| && expired == timers[..k]
        invariant forall i :: 0 <= i < k ==> end == |timers| || timers[i].time <= timers[end].time
      {
        expired := expired + [timers[k]];
        k := k + 1;
      }
      CutIsReached(timers, now, sentry, k);
    }

    /** The second erases them from both indexes. */
    method EraseExpired()
      requires expired <= timers && forall e :: e in timers ==> e.addr in heap
      modifies this`timers, this`active
      ensures Timers() == Expire(old(Timers()).(expired := []), |expired|)
    {
      ghost var p, k := Timers(), |expired|;
      assert expired == p.timers[..k];
      var j := 0;
      while j < |expired|
        invariant j <= k && timers == p.timers[j..]
        invariant active == p.active - FirstIds(p, j)
      {
        var e := expired[j];
        assert e == p.timers[j] && e in p.timers;      // so the pointer may be dereferenced
        assert timers[0] == e && timers[1..] == p.timers[j + 1..];
        OneMoreId(p, j);
        timers := Erase(timers, e);
        active := active - {Id(e.addr, heap[e.addr].num)};
        j := j + 1;
      }
    }

    method GetExpired(now: int, sentry: Addr)
      requires Sorted(timers) && expired == [] && forall e :: e in timers ==> e.addr in heap
      modifies this`timers, this`active, this`expired
      ensures Timers() == Expire(old(Timers()), Cut(old(timers), now, sentry))
    {
      CopyExpired(now, sentry);
      EraseExpired();
    }

    /** One turn of the loop in reset. */
    method ResetFirst()
      requires expired != [] && expired[0].addr in heap
      modifies this`heap, this`timers, this`active, this`expired
      ensures Timers() == ResetOne(old(Timers()), now, canceling)
    {
      var a := expired[0].addr;
      var tm := heap[a];
      expired := expired[1..];
      if tm.repeat && Id(a, tm.num) !in canceling {
        heap := heap[a := tm.(expiration := now + tm.interval)];
        timers := InsertSorted(timers, Entry(heap[a].expiration, a));
        active := active + {Id(a, tm.num)};
      } else {
        heap := heap - {a};
      }
    }

    /** reset: put back or delete each timer of the batch, then set the alarm. */
    method Reset(clock: int)
      requires InFlight(Timers())
      modifies this`heap, this`timers, this`active, this`expired, this`alarm
      ensures Timers() == ResetAll(old(Timers()), now, canceling)
      ensures alarm == Rearm(timers, clock, old(alarm))
    {
      while expired != []
        invariant InFlight(Timers()) && alarm == old(alarm)
        invariant ResetAll(Timers(), now, canceling) == ResetAll(old(Timers()), now, canceling)
        decreases |expired|
      {
        ResetOneKeepsInFlight(Timers(), now, canceling);
        ResetFirst();
      }
      if timers != [] && timers[0].time > 0 {
        alarm := Arm(timers[0].time, clock);
      }
    }

    /** A constructor's s_numCreated++, or that of a timer of another loop. */
    method CountTimer(addr: Option<Addr>)
      requires addr.Some? ==> addr.value !in heap && addr.value !in building
      modifies this`created, this`building
      ensures Abs() == Apply(old(Abs()), if addr.Some? then Alloc(addr.value) else Bump)
    {
      created := created + 1;
      if addr.Some? {
        building := building[addr.value := created];
      }
    }

    /** The rest of the constructor, and the functor that will add the timer. */
    method StoreTimer(addr: Addr, when: int, interval: int, repeat: bool)
      requires addr in building
      modifies this`heap, this`building, this`queued, this`issued
      ensures Timers() == Construct(old(Timers()), Load(addr, when, interval, repeat))
    {
      building := building - {addr};
      heap := heap[addr := Timer(when, interval, repeat, created)];
      queued := queued + {addr};
      issued := issued + {Id(addr, created)};
    }

    /** That, and addTimer is then between the hand-off and its read of the number. */
    method LoadNumber(addr: Addr, when: int, interval: int, repeat: bool)
      requires addr in building
      modifies this`heap, this`building, this`queued, this`issued, this`unread
      ensures Abs() == Apply(old(Abs()), Load(addr, when, interval, repeat))
    {
      StoreTimer(addr, when, interval, repeat);
      unread := unread + {Id(addr, created)};
    }

    /** The end of addTimer: the number is read through the pointer that was handed over. */
    method ReadNumber(id: Id) returns (timerId: Option<Id>)
      requires id in unread
      modifies this`unread, this`got
      ensures Abs() == Apply(old(Abs()), Action.ReadNumber(id)) && timerId == NumberRead(Timers(), id)
    {
      timerId := if id.addr in heap then Some(Id(id.addr, heap[id.addr].num)) else None;
      unread := unread - {id};
      got := got + [(id, timerId)];
    }

    /** What a callback may do to the queue: construct, add and cancel timers. */
    method Perform(a: Action)
      requires Inv(Abs()) && FromCallback(a)
      modifies this
      ensures Abs() == Next(old(Abs()), a)
    {
      PointersLive(Timers());
      match a
      case AddInLoop(addr, clock) => if addr in queued { AddTimer(addr, clock); }
      case Cancel(id) => Cancel(id);
      case Alloc(addr) => if addr !in heap && addr !in building { CountTimer(Some(addr)); }
      case Bump => CountTimer(None);
      case ReadNumber(id) => if id in unread { var timerId := ReadNumber(id); }
      case Load(addr, when, interval, repeat) => if addr in building { LoadNumber(addr, when, interval, repeat); }
    }

    method PerformAll(script: seq<Action>)
      requires Inv(Abs()) && forall a :: a in script ==> FromCallback(a)
      modifies this
      ensures Inv(Abs()) && Abs() == Exec(old(Abs()), script) && SameRound(old(Abs()), Abs())
    {
      for i := 0 to |script|
        invariant Inv(Abs()) && Abs() == Exec(old(Abs()), script[..i]) && SameRound(old(Abs()), Abs())
      {
        assert script[..i + 1] == script[..i] + [script[i]];
        ExecSplit(old(Abs()), script[..i], [script[i]]);
        ExecOne(Abs(), script[i]);
        RunsKeepInv(Abs(), [script[i]]);
        CallbackKeepsRound(Abs(), script[i]);
        Perform(script[i]);
      }
      assert script[..|script|] == script;
    }

    /** The start of handleRead. */
    method Begin(now: int, sentry: Addr)
      requires Sorted(timers) && expired == [] && forall e :: e in timers ==> e.addr in heap
      modifies this`timers, this`active, this`expired
      modifies this`alarm, this`now, this`calling, this`canceling, this`next, this`round
      ensures Abs() == BeginRound(old(Abs()), now, sentry)
    {
      GetExpired(now, sentry);
      StartCalling(now);
    }

    method StartCalling(now: int)
      modifies this`alarm, this`now, this`calling, this`canceling, this`next, this`round
      ensures Timers() == old(Timers())
      ensures Abs() == State(Timers(), {}, true, 0, now, Off, old(round) + 1, ran, unread, got)
    {
      alarm, this.now, calling, canceling, next, round := Off, now, true, {}, 0, round + 1;
    }

    method BeginStep(now: int, sentry: Addr)
      requires Inv(Abs()) && !calling && sentry !in heap && sentry !in building
      modifies this
      ensures Inv(Abs()) && Abs() == Next(old(Abs()), Action.Begin(now, sentry)) && calling && next == 0
      ensures expired == old(timers)[..Cut(old(timers), now, sentry)] && ran == old(ran) && round == old(round) + 1
    {
      BeginPossible(Abs(), now, sentry);
      Begin(now, sentry);
    }

    method RunTimer()
      requires Inv(Abs()) && calling && next < |expired|
      modifies this`next, this`ran
      ensures Inv(Abs()) && Abs() == RunCallback(old(Abs()))
    {
      PointersLive(Timers());
      assert expired[next].addr in heap;               // the callback is read through the pointer
      ran := ran + [(round, IdOf(Timers(), expired[next].addr))];
      next := next + 1;
    }

    method Finish(clock: int)
      requires Inv(Abs()) && calling && next == |expired|
      modifies this
      ensures Inv(Abs()) && Abs() == Next(old(Abs()), Action.Finish(clock)) && ran == old(ran) && !calling
    {
      PointersLive(Timers());
      StepKeepsInv(Abs(), Action.Finish(clock));
      calling, next := false, 0;
      Reset(clock);
    }

    /** One callback of a round and what it does. */
    method RunWith(callback: seq<Action>)
      requires Inv(Abs()) && calling && next < |expired| && forall a :: a in callback ==> FromCallback(a)
      modifies this
      ensures Inv(Abs()) && Abs() == Exec(old(Abs()), [RunNext] + callback)
      ensures SameRound(old(RunCallback(Abs())), Abs())
    {
      ghost var s := Abs();
      ExecOne(s, RunNext);
      ExecSplit(s, [RunNext], callback);
      RunTimer();
      PerformAll(callback);
    }

    /** The callbacks of a round, in order. */
    method RunBatch(script: seq<seq<Action>>) returns (ghost acts: seq<Action>)
      requires Inv(Abs()) && calling && next == 0
      requires forall callback, a :: callback in script && a in callback ==> FromCallback(a)
      modifies this
      ensures Inv(Abs()) && Abs() == Exec(old(Abs()), acts) && calling && next == |expired|
      ensures ran == old(ran) + Called(old(round), old(Timers()), old(expired))
    {
      ghost var s := Abs();
      acts := [];
      assert Called(round, s.pool, expired[..0]) == [];
      while next < |expired|
        invariant Inv(Abs()) && InRound(s, Abs(), acts)
        decreases |expired| - next
      {
        var callback := if next < |script| then script[next] else [];
        assert forall a :: a in callback ==> FromCallback(a);
        ghost var x := Abs();
        RunWith(callback);
        BatchStep(s, x, Abs(), acts, callback);
        acts := acts + ([RunNext] + callback);
      }
      assert expired[..next] == expired;
    }

    /**
     handleRead, whose i-th callback performs script[i].  It is a run of the queue: one Begin,
     one RunNext for each timer of the batch with whatever its callback does, one Finish.
     */
    method HandleRead(now: int, sentry: Addr, clock: int, script: seq<seq<Action>>) returns (ghost acts: seq<Action>)
      requires Inv(Abs()) && !calling && sentry !in heap && sentry !in building
      requires forall callback, a :: callback in script && a in callback ==> FromCallback(a)
      modifies this
      ensures Inv(Abs()) && !calling && Abs() == Exec(old(Abs()), acts)
      // the callbacks run are those of the batch, once each and in order
      ensures ran == old(ran) + Called(old(round) + 1, Next(old(Abs()), Action.Begin(now, sentry)).pool,
                                       old(timers)[..Cut(old(timers), now, sentry)])
    {
      ghost var s := Abs();
      BeginStep(now, sentry);
      acts := RunBatch(script);
      ComposeRound(s, Action.Begin(now, sentry), acts, Action.Finish(clock));
      Finish(clock);
      acts := [Action.Begin(now, sentry)] + acts + [Action.Finish(clock)];
    }
  }
}
