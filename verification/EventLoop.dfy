/**
 The task hand-off between foreign threads and an event loop
 (myTinymuduo/resoure/Eventloop.cpp).

 The protocol is a step relation: any number of threads push closures under the
 mutex and, some time later, write the eventfd; the loop thread polls, runs the
 handlers, swaps the pending vector out and runs the batch.  A run is a sequence
 of actions, each enabled where it is taken.  Class Eventloop executes the steps
 on the source's fields and keeps, as a ghost, the run it has performed.
 */
module EventLoop {
  type Task = nat
  type Thread = nat

  /** The thread that owns the loop (threadID_). */
  const LOOP_THREAD: Thread := 0

  /** The largest value an eventfd counter holds; a non-blocking write beyond it fails. */
  const COUNTER_MAX := 0xffff_ffff_ffff_fffe

  /** Where the loop thread is. */
  datatype Phase =
    | Check                 // about to test while(!quit_)
    | Poll                  // in epoll_wait
    | Handle(woken: bool)   // running handlers; woken: handleRead is still to run
    | Swapping              // callingPendingFunctors_ is set, the lock is not yet taken
    | Run                   // running the batch that was swapped out
    | Stopped

  datatype State = State(
    phase: Phase,
    quit: bool,
    calling: bool,         // callingPendingFunctors_
    pending: seq<Task>,    // pendingFunctions_
    batch: seq<Task>,      // what is left of the local vector functors
    counter: nat,          // the eventfd
    waking: set<Thread>,   // threads between their push (or quit) and their wakeup write
    // what an observer of the mutex and of the loop thread has seen
    pushed: seq<Task>,     // every task, in the order the mutex was taken
    executed: seq<Task>,   // every task started from a batch, in order
    cut: nat)              // |pushed| when the batch was swapped out

  datatype Action =
    | Push(who: Thread, task: Task)   // queueInLoop, the locked part and the test after it
    | Quit(who: Thread)               // quit_ = true
    | Wakeup(who: Thread)             // the write to the eventfd
    | EnterPoll
    | PollReturn(woken: bool)
    | HandleRead
    | BeginPending
    | Swap
    | RunOne
    | Finish
    | Exit

  const INIT := State(Check, false, false, [], [], 0, {}, [], [], 0)

  /** The loop thread calls queueInLoop and quit only from handlers and tasks. */
  predicate LoopThreadMayCall(s: State) {
    LOOP_THREAD !in s.waking && (s.phase.Handle? || s.phase.Run?)
  }

  predicate Enabled(s: State, a: Action) {
    match a
    case Push(who, _) => who !in s.waking && (who == LOOP_THREAD ==> LoopThreadMayCall(s))
    case Quit(who) => who !in s.waking && (who == LOOP_THREAD ==> LoopThreadMayCall(s))
    case Wakeup(who) => who in s.waking
    case _ =>
      && LOOP_THREAD !in s.waking
      && match a
         case EnterPoll => s.phase == Check && !s.quit
         case PollReturn(woken) => s.phase == Poll && (woken ==> s.counter > 0)
         case HandleRead => s.phase == Handle(true)
         case BeginPending => s.phase == Handle(false)
         case Swap => s.phase == Swapping
         case RunOne => s.phase == Run && s.batch != []
         case Finish => s.phase == Run && s.batch == []
         case Exit => s.phase == Check && s.quit
  }

  /** What the test in queueInLoop decides: wake unless it is the loop thread outside a batch. */
  predicate MustWake(s: State, who: Thread) {
    who != LOOP_THREAD || s.calling
  }

  function Apply(s: State, a: Action): State
    requires Enabled(s, a)
  {
    match a
    case Push(who, task) =>
      s.(pending := s.pending + [task], pushed := s.pushed + [task],
         waking := if MustWake(s, who) then s.waking + {who} else s.waking)
    case Quit(who) =>
      s.(quit := true, waking := if who != LOOP_THREAD then s.waking + {who} else s.waking)
    case Wakeup(who) =>
      s.(waking := s.waking - {who}, counter := if s.counter < COUNTER_MAX then s.counter + 1 else s.counter)
    case EnterPoll => s.(phase := Poll)
    case PollReturn(woken) => s.(phase := Handle(woken))
    case HandleRead => s.(phase := Handle(false), counter := 0)
    case BeginPending => s.(phase := Swapping, calling := true)
    case Swap => s.(phase := Run, batch := s.pending, pending := [], cut := |s.pushed|)
    case RunOne => s.(batch := s.batch[1..], executed := s.executed + [s.batch[0]])
    case Finish => s.(phase := Check, calling := false)
    case Exit => s.(phase := Stopped)
  }

  /** An action that is not possible where it stands does nothing. */
  function Next(s: State, a: Action): State {
    if Enabled(s, a) then Apply(s, a) else s
  }

  /** The state after a run.  Every sequence of actions is a run, so all interleavings are here. */
  function Exec(s: State, acts: seq<Action>): State
    decreases |acts|
  {
    if acts == [] then s else Exec(Next(s, acts[0]), acts[1..])
  }

  lemma {:induction false} ExecSplit(s: State, a: seq<Action>, b: seq<Action>)
    ensures Exec(s, a + b) == Exec(Exec(s, a), b)
    decreases |a|
  {
    if a == [] {
      assert a + b == b;
    } else {
      assert (a + b)[1..] == a[1..] + b;
      ExecSplit(Next(s, a[0]), a[1..], b);
    }
  }

  // ---- the invariant ----

  /** The phase-indexed part: outside Handle and Swapping a task that waits, waits with a wakeup. */
  predicate Notified(s: State) {
    s.counter > 0 || s.waking != {}
  }

  predicate Inv(s: State) {
    && s.executed + s.batch + s.pending == s.pushed
    && (s.phase.Check? || s.phase.Poll? || s.phase.Run? ==> s.pending != [] ==> Notified(s))
    && (s.phase.Poll? && s.quit ==> Notified(s))
    && (s.calling <==> s.phase.Swapping? || s.phase.Run?)
    && (s.batch != [] ==> s.phase.Run?)
    && (s.phase.Run? ==> s.cut <= |s.pushed| && s.executed + s.batch == s.pushed[..s.cut])
  }

  lemma StepKeepsInv(s: State, a: Action)
    requires Inv(s) && Enabled(s, a)
    ensures Inv(Apply(s, a))
  {
    var t := Apply(s, a);
    match a
    case Push(who, task) =>
      assert s.executed + s.batch + (s.pending + [task]) == s.executed + s.batch + s.pending + [task];
    case RunOne =>
      assert s.executed + s.batch == t.executed + t.batch;
    case Swap =>
      assert s.executed + s.pending == s.pushed == s.pushed[..|s.pushed|];
    case _ =>
  }

  lemma {:induction false} RunsKeepInv(s: State, acts: seq<Action>)
    requires Inv(s)
    ensures Inv(Exec(s, acts))
    decreases |acts|
  {
    if acts != [] {
      if Enabled(s, acts[0]) {
        StepKeepsInv(s, acts[0]);
      }
      RunsKeepInv(Next(s, acts[0]), acts[1..]);
    }
  }

  // ---- the theorems ----

  /** No lost wakeup, and no lost quit: whatever the interleaving. */
  lemma NoLostWakeup(acts: seq<Action>)
    ensures var s := Exec(INIT, acts);
            s.pending != [] && (s.phase.Run? || s.phase.Check? || s.phase.Poll?)
            ==> s.counter > 0 || exists t :: t in s.waking
    ensures var s := Exec(INIT, acts);
            s.quit && s.phase.Poll? ==> s.counter > 0 || exists t :: t in s.waking
  {
    RunsKeepInv(INIT, acts);
  }

  /** Exactly once, in push order; and a batch is exactly the prefix that was there at the swap. */
  lemma ExactlyOnceInOrder(acts: seq<Action>)
    ensures var s := Exec(INIT, acts);
            && s.executed + s.batch + s.pending == s.pushed == Handed(INIT, acts)
            && (s.phase.Run? ==> s.cut <= |s.pushed| && s.executed + s.batch == s.pushed[..s.cut]
                                 && s.pending == s.pushed[s.cut..])
  {
    RunsKeepInv(INIT, acts);
    PushedIsHanded(INIT, acts);
    if Exec(INIT, acts).phase.Run? {
      CutSplitsPushed(Exec(INIT, acts));
    }
  }

  /** The tasks that callers hand over in a run, in their order. */
  function Handed(s: State, acts: seq<Action>): seq<Task>
    decreases |acts|
  {
    if acts == [] then [] else
    (if acts[0].Push? && Enabled(s, acts[0]) then [acts[0].task] else []) + Handed(Next(s, acts[0]), acts[1..])
  }

  lemma {:induction false} PushedIsHanded(s: State, acts: seq<Action>)
    ensures Exec(s, acts).pushed == s.pushed + Handed(s, acts)
    decreases |acts|
  {
    if acts != [] {
      PushedIsHanded(Next(s, acts[0]), acts[1..]);
    }
  }

  /** A push owes a wakeup exactly when it comes from another thread or from a running functor. */
  lemma WakeupOwedIff(acts: seq<Action>, who: Thread, task: Task)
    requires Enabled(Exec(INIT, acts), Push(who, task))
    ensures var s := Exec(INIT, acts);
            who in Next(s, Push(who, task)).waking <==> who != LOOP_THREAD || s.phase.Run?
  {
    RunsKeepInv(INIT, acts);
  }

  /** Once quit() has been called the loop polls no more: wherever it is at its test, it can only leave. */
  lemma QuitIsForGood(s: State, who: Thread, acts: seq<Action>)
    requires Enabled(s, Quit(who))
    ensures var t := Exec(Next(s, Quit(who)), acts);
            && t.quit && !Enabled(t, EnterPoll)
            && (t.phase == Check && LOOP_THREAD !in t.waking ==> Enabled(t, Exit))
            && (who != LOOP_THREAD && Wakeup(who) !in acts ==> who in t.waking)
  {
    QuitStays(Next(s, Quit(who)), who, acts);
  }

  lemma {:induction false} QuitStays(s: State, who: Thread, acts: seq<Action>)
    requires s.quit
    ensures Exec(s, acts).quit
    ensures who in s.waking && Wakeup(who) !in acts ==> who in Exec(s, acts).waking
    decreases |acts|
  {
    if acts != [] {
      QuitStays(Next(s, acts[0]), who, acts[1..]);
    }
  }

  lemma CutSplitsPushed(s: State)
    requires Inv(s) && s.phase.Run?
    ensures s.pending == s.pushed[s.cut..]
  {
    assert (s.executed + s.batch) + s.pending == s.pushed;
  }

  /**
   Until the call to doPendingFunctors finishes, what it has run and still will run is what it
   swapped out, whatever is pushed meanwhile: it runs at most |s.batch| more functors.
   */
  lemma {:induction false} BatchIsFixed(s: State, acts: seq<Action>)
    requires s.phase.Run? && Finish !in acts
    ensures var t := Exec(s, acts);
            && t.phase.Run? && t.cut == s.cut && s.executed <= t.executed
            && t.executed + t.batch == s.executed + s.batch
    decreases |acts|
  {
    if acts != [] {
      var t := Next(s, acts[0]);
      assert t.executed + t.batch == s.executed + s.batch;
      BatchIsFixed(t, acts[1..]);
    }
  }

  lemma {:induction false} DrainBatch(s: State, n: nat)
    requires s.phase == Run && LOOP_THREAD !in s.waking && n == |s.batch|
    ensures Exec(s, seq(n, _ => RunOne)) == s.(batch := [], executed := s.executed + s.batch)
    decreases n
  {
    var acts := seq(n, _ => RunOne);
    if n > 0 {
      assert acts[1..] == seq(n - 1, _ => RunOne);
      DrainBatch(Next(s, RunOne), n - 1);
      assert s.executed + [s.batch[0]] + s.batch[1..] == s.executed + s.batch;
    }
  }

  /** From a poll that returns on the eventfd to the start of the batch. */
  lemma UpToSwap(s: State)
    requires s.phase == Poll && s.counter > 0 && LOOP_THREAD !in s.waking
    ensures Exec(s, [PollReturn(true), HandleRead, BeginPending, Swap])
         == s.(phase := Run, counter := 0, calling := true, batch := s.pending, pending := [], cut := |s.pushed|)
  {
    ExecSplit(s, [PollReturn(true)], [HandleRead, BeginPending, Swap]);
    assert [PollReturn(true)] + [HandleRead, BeginPending, Swap] == [PollReturn(true), HandleRead, BeginPending, Swap];
    var s1 := s.(phase := Handle(true));
    assert Exec(s, [PollReturn(true)]) == s1;
    ExecSplit(s1, [HandleRead], [BeginPending, Swap]);
    assert [HandleRead] + [BeginPending, Swap] == [HandleRead, BeginPending, Swap];
    var s2 := s1.(phase := Handle(false), counter := 0);
    assert Exec(s1, [HandleRead]) == s2;
    ExecSplit(s2, [BeginPending], [Swap]);
    assert [BeginPending] + [Swap] == [BeginPending, Swap];
  }

  /** From there to the end of the call, when nobody interferes. */
  lemma FromSwapToFinish(s: State)
    requires s.phase == Run && LOOP_THREAD !in s.waking
    ensures Exec(s, seq(|s.batch|, _ => RunOne) + [Finish])
         == s.(batch := [], executed := s.executed + s.batch, phase := Check, calling := false)
  {
    var runs := seq(|s.batch|, _ => RunOne);
    ExecSplit(s, runs, [Finish]);
    DrainBatch(s, |s.batch|);
    var t := s.(batch := [], executed := s.executed + s.batch);
    assert Exec(t, [Finish]) == Apply(t, Finish);
  }

  /**
   Hence a blocked loop is never stuck on queued work: if no caller is on its way to a wakeup,
   the poll can return on the eventfd, and one turn of the loop then runs everything pushed.
   */
  lemma OneTurnRunsEverythingPushed(acts: seq<Action>)
    requires var s := Exec(INIT, acts); s.phase == Poll && s.waking == {} && s.pending != []
    ensures var s := Exec(INIT, acts);
            var turn := [PollReturn(true), HandleRead, BeginPending, Swap]
                        + (seq(|s.pending|, _ => RunOne) + [Finish]);
            && Enabled(s, PollReturn(true))
            && Exec(s, turn).phase == Check && Exec(s, turn).executed == s.pushed && Exec(s, turn).pending == []
  {
    var s := Exec(INIT, acts);
    RunsKeepInv(INIT, acts);
    OneTurn(s);
  }

  lemma OneTurn(s: State)
    requires s.phase == Poll && s.waking == {} && s.counter > 0 && s.batch == []
    requires s.executed + s.batch + s.pending == s.pushed
    ensures var turn := [PollReturn(true), HandleRead, BeginPending, Swap]
                        + (seq(|s.pending|, _ => RunOne) + [Finish]);
            Exec(s, turn).phase == Check && Exec(s, turn).executed == s.pushed && Exec(s, turn).pending == []
  {
    UpToSwap(s);
    var first := [PollReturn(true), HandleRead, BeginPending, Swap];
    ExecSplit(s, first, seq(|s.pending|, _ => RunOne) + [Finish]);
    FromSwapToFinish(Exec(s, first));
    assert s.executed + s.batch == s.executed;
  }

  // ---- the class ----

  /** What any number of pushes, quits and wakeups leave alone, and how they move the rest. */
  predicate CallersOnly(s: State, t: State) {
    && t.phase == s.phase && t.calling == s.calling && t.batch == s.batch
    && t.executed == s.executed && t.cut == s.cut
    && s.pushed <= t.pushed && s.pending <= t.pending && (s.quit ==> t.quit)
  }

  class Eventloop {
    var phase: Phase
    var quit: bool
    var calling: bool
    var pending: seq<Task>
    var batch: seq<Task>
    var counter: nat
    var waking: set<Thread>
    ghost var pushed: seq<Task>
    ghost var executed: seq<Task>
    ghost var cut: nat

    ghost function Abs(): State
      reads this
    {
      State(phase, quit, calling, pending, batch, counter, waking, pushed, executed, cut)
    }

    ghost predicate Valid()
      reads this
    {
      Inv(Abs())
    }

    constructor ()
      ensures Valid() && Abs() == INIT
    {
      phase, quit, calling, pending, batch, counter, waking := Check, false, false, [], [], 0, {};
      pushed, executed, cut := [], [], 0;
    }

    /** The locked part of queueInLoop and the test that follows it. */
    method PushFunctor(who: Thread, cb: Task)
      requires Valid() && Enabled(Abs(), Push(who, cb))
      modifies this
      ensures Valid() && Abs() == Apply(old(Abs()), Push(who, cb))
    {
      StepKeepsInv(Abs(), Push(who, cb));
      pending, pushed := pending + [cb], pushed + [cb];
      if who != LOOP_THREAD || calling {
        waking := waking + {who};
      }
    }

    /** write(wakeupfd_, 1): fails without effect when the counter is full. */
    method WakeupWrite(who: Thread)
      requires Valid() && who in waking
      modifies this
      ensures Valid() && Abs() == Apply(old(Abs()), Wakeup(who)) && counter > 0
    {
      StepKeepsInv(Abs(), Wakeup(who));
      if counter < COUNTER_MAX {
        counter := counter + 1;
      }
      waking := waking - {who};
    }

    method SetQuit(who: Thread)
      requires Valid() && Enabled(Abs(), Quit(who))
      modifies this
      ensures Valid() && Abs() == Apply(old(Abs()), Quit(who))
      ensures quit && (who != LOOP_THREAD ==> who in waking)
    {
      StepKeepsInv(Abs(), Quit(who));
      quit := true;
      if who != LOOP_THREAD {
        waking := waking + {who};
      }
    }

    /** queueInLoop whole, with other callers free to act between the unlock and the write. */
    method QueueInLoop(who: Thread, cb: Task, between: seq<Action>)
      requires Valid() && Enabled(Abs(), Push(who, cb))
      modifies this
      ensures Valid() && who !in waking && CallersOnly(old(Abs()), Abs())
      ensures old(pushed) + [cb] <= pushed
    {
      PushFunctor(who, cb);
      Interfere(between);
      if who in waking {
        WakeupWrite(who);
      }
    }

    /**
     What callers do between two steps of the loop thread, taken from a schedule: a request that
     is not possible at its turn is skipped.  If the loop thread is itself inside a call at the
     end, it completes that call.
     */
    method Interfere(schedule: seq<Action>)
      requires Valid()
      modifies this
      ensures Valid() && CallersOnly(old(Abs()), Abs()) && LOOP_THREAD !in waking
    {
      for i := 0 to |schedule|
        invariant Valid() && CallersOnly(old(Abs()), Abs())
      {
        var a := schedule[i];
        if a.Push? && MayCall(a.who) {
          PushFunctor(a.who, a.task);
        } else if a.Quit? && MayCall(a.who) {
          SetQuit(a.who);
        } else if a.Wakeup? && a.who in waking {
          WakeupWrite(a.who);
        }
      }
      if LOOP_THREAD in waking {
        WakeupWrite(LOOP_THREAD);
      }
    }

    predicate MayCall(who: Thread)
      reads this
    {
      who !in waking && (who == LOOP_THREAD ==> phase.Handle? || phase.Run?)
    }

    method BeginCalling()
      requires Valid() && Enabled(Abs(), BeginPending)
      modifies this
      ensures Valid() && Abs() == Apply(old(Abs()), BeginPending)
    {
      StepKeepsInv(Abs(), BeginPending);
      calling, phase := true, Swapping;
    }

    /** functors.swap(pendingFunctions_), under the mutex. */
    method SwapOut()
      requires Valid() && Enabled(Abs(), Swap)
      modifies this
      ensures Valid() && Abs() == Apply(old(Abs()), Swap)
    {
      StepKeepsInv(Abs(), Swap);
      batch, pending, phase, cut := pending, [], Run, |pushed|;
    }

    method RunFirst()
      requires Valid() && Enabled(Abs(), RunOne)
      modifies this
      ensures Valid() && Abs() == Apply(old(Abs()), RunOne)
    {
      StepKeepsInv(Abs(), RunOne);
      batch, executed := batch[1..], executed + [batch[0]];
    }

    method EndCalling()
      requires Valid() && Enabled(Abs(), Finish)
      modifies this
      ensures Valid() && Abs() == Apply(old(Abs()), Finish)
      ensures cut <= |pushed| && executed == pushed[..cut] && pending == pushed[cut..]
    {
      CutSplitsPushed(Abs());
      StepKeepsInv(Abs(), Finish);
      calling, phase := false, Check;
    }

    /** doPendingFunctors, with the callers free to act before the lock and after each functor. */
    method DoPendingFunctors(beforeSwap: seq<Action>, after: seq<seq<Action>>)
      requires Valid() && phase == Handle(false) && LOOP_THREAD !in waking
      modifies this
      ensures Valid() && phase == Check && LOOP_THREAD !in waking
      // everything pushed before the call has run, and nothing pushed after the swap has
      ensures |old(pushed)| <= cut <= |pushed| && old(pushed) <= pushed
      ensures executed == pushed[..cut] && pending == pushed[cut..]
    {
      BeginCalling();
      Interfere(beforeSwap);
      SwapOut();
      var i := 0;
      while batch != []
        invariant Valid() && phase == Run && LOOP_THREAD !in waking
        invariant |old(pushed)| <= cut && old(pushed) <= pushed
        decreases |batch|
      {
        RunFirst();
        Interfere(if i < |after| then after[i] else []);
        i := i + 1;
      }
      EndCalling();
    }

    /** One turn of the while(!quit_) loop. */
    method LoopOnce(inPoll: seq<Action>, wantWoken: bool, inHandlers: seq<Action>,
                    beforeSwap: seq<Action>, after: seq<seq<Action>>)
      requires Valid() && phase == Check && LOOP_THREAD !in waking
      modifies this
      ensures Valid() && LOOP_THREAD !in waking
      ensures old(quit) ==> phase == Stopped && Abs() == old(Abs()).(phase := Stopped)
      ensures !old(quit) ==> phase == Check && old(pushed) <= executed
    {
      if quit {
        StepKeepsInv(Abs(), Exit);
        phase := Stopped;
        return;
      }
      StepKeepsInv(Abs(), EnterPoll);
      phase := Poll;
      Interfere(inPoll);
      var woken := wantWoken && counter > 0;
      StepKeepsInv(Abs(), PollReturn(woken));
      phase := Handle(woken);
      if woken {
        StepKeepsInv(Abs(), HandleRead);
        phase, counter := Handle(false), 0;
      }
      Interfere(inHandlers);
      DoPendingFunctors(beforeSwap, after);
      assert old(pushed) <= pushed[..cut];
    }
  }
}
