/**
 A connection's output stream (myTinymuduo/resoure/TcpConnection.cpp): sends, partial writes,
 writable events and the graceful shutdown, as the steps that the loop thread takes.

 sendInLoop logs that it gives up on a disconnected connection but does not return.  The option
 givesUp chooses between the two forms; AsWrittenIff says when they differ.
 */
module Connection {
  import opened Prelude
  import opened ByteBuffer

  datatype Status = Connecting | Connected | Disconnecting | Disconnected

  datatype Errno = EWOULDBLOCK | EPIPE | ECONNRESET | OTHER

  /** What a write call returns. */
  datatype WriteResult = Wrote(n: nat) | Failed(errno: Errno)

  predicate Fatal(r: WriteResult) {
    r.Failed? && (r.errno == EPIPE || r.errno == ECONNRESET)
  }

  /** The callbacks that the connection queues in its loop. */
  datatype Task = WriteComplete | HighWater(len: nat)

  datatype Options = Options(givesUp: bool, writeComplete: bool, highWaterMark: nat)

  /**
   writing is the write bit of the channel's mask.  The rest is history: wire holds the bytes
   that the kernel took, offered the messages that sendInLoop took on, accepted those of them
   that no fatal error dropped, shutdowns the calls of shutdownwrite, asked what was accepted
   when shutdown() first took effect, and closed whether a close has cleared the mask.  readers
   are the calls of shutdown() on other threads between their test of the state and their
   store, and due the calls of shutdownInLoop that they have queued.
   */
  datatype State = State(status: Status, writing: bool, out: string, tasks: seq<Task>,
                         wire: string, offered: seq<string>, accepted: seq<string>,
                         shutdowns: nat, asked: Option<seq<string>>, closed: bool, readers: nat, due: nat)

  datatype Action =
    | Establish
    | Send(message: string, result: WriteResult)
    | RunQueuedSend(message: string, result: WriteResult)
    | Writable(result: WriteResult)
    | Shutdown
    | ReadElsewhere
    | StoreElsewhere
    | RunQueuedShutdown
    | Close
    | Destroy

  // ---- the operations ----

  /** The end of sendInLoop: queue what the write left of the message. */
  function Keep(o: Options, s: State, message: string, n: nat): State
    requires n <= |message|
  {
    var t := s.(accepted := s.accepted + [message]);
    if n == |message| then t else
    var len := |s.out| + (|message| - n);
    t.(tasks := if len >= o.highWaterMark && |s.out| < o.highWaterMark then t.tasks + [HighWater(len)] else t.tasks,
       out := t.out + message[n..], writing := true)
  }

  function SendStep(o: Options, s: State, message: string, r: WriteResult): State
    requires r.Wrote? ==> r.n <= |message|
  {
    if o.givesUp && s.status == Disconnected then s else
    var t := s.(offered := s.offered + [message]);
    if s.writing || s.out != "" then Keep(o, t, message, 0)
    else if Fatal(r) then t
    else if r.Failed? then Keep(o, t, message, 0)
    else
      Keep(o, t.(wire := t.wire + message[..r.n],
                 tasks := if r.n == |message| && o.writeComplete then t.tasks + [WriteComplete] else t.tasks),
           message, r.n)
  }

  function ShutdownStep(s: State): State {
    if s.writing then s else s.(shutdowns := s.shutdowns + 1)
  }

  function WriteStep(o: Options, s: State, r: WriteResult): State
    requires r.Wrote? ==> r.n <= |s.out|
  {
    if !s.writing then s
    else if r.Wrote? && r.n > 0 then
      var t := s.(wire := s.wire + s.out[..r.n], out := s.out[r.n..]);
      if t.out != "" then t else
      var u := t.(writing := false, tasks := if o.writeComplete then t.tasks + [WriteComplete] else t.tasks);
      if u.status == Disconnecting then ShutdownStep(u) else u
    else if s.status == Disconnecting then ShutdownStep(s) else s
  }

  function DisconnectStep(s: State): State {
    s.(status := Disconnected, writing := false, closed := true)
  }

  /** shutdown() takes effect. */
  function Ask(s: State): State {
    s.(status := Disconnecting, asked := if s.asked.Some? then s.asked else Some(s.accepted))
  }

  /**
   write takes no more than it was offered, and nothing once the write side is shut down: it then
   fails with EPIPE or an error that was pending.
   */
  predicate Possible(s: State, r: WriteResult, len: nat) {
    r.Wrote? ==> r.n <= len && (s.shutdowns > 0 ==> r.n == 0)
  }

  /** A connection is established once. */
  predicate Enabled(s: State, a: Action) {
    match a
    case Establish => s.status == Connecting
    case Send(message, r) => Possible(s, r, |message|)
    case RunQueuedSend(message, r) => Possible(s, r, |message|)
    case Writable(r) => Possible(s, r, |s.out|)
    case StoreElsewhere => s.readers > 0
    case RunQueuedShutdown => s.due > 0
    case _ => true
  }

  function Apply(o: Options, s: State, a: Action): State
    requires Enabled(s, a)
  {
    match a
    case Establish => s.(status := Connected)
    case Send(message, r) => if s.status == Connected then SendStep(o, s, message, r) else s
    case RunQueuedSend(message, r) => SendStep(o, s, message, r)
    case Writable(r) => WriteStep(o, s, r)
    case Shutdown => if s.status == Connected then ShutdownStep(Ask(s)) else s
    case ReadElsewhere => if s.status == Connected then s.(readers := s.readers + 1) else s
    case StoreElsewhere => Ask(s).(readers := s.readers - 1, due := s.due + 1)
    case RunQueuedShutdown => ShutdownStep(s.(due := s.due - 1))
    case Close => DisconnectStep(s)
    case Destroy => if s.status == Connected then DisconnectStep(s) else s
  }

  function Next(o: Options, s: State, a: Action): State {
    if Enabled(s, a) then Apply(o, s, a) else s
  }

  const INIT := State(Connecting, false, "", [], "", [], [], 0, None, false, 0, 0)

  function ExecFrom(o: Options, s: State, run: seq<Action>): State {
    if run == [] then s else Next(o, ExecFrom(o, s, run[..|run| - 1]), run[|run| - 1])
  }

  function Exec(o: Options, run: seq<Action>): State {
    ExecFrom(o, INIT, run)
  }

  // ---- the stream ----

  predicate Intact(s: State) {
    s.wire + s.out == Concat(s.accepted)
  }

  predicate InterestFits(o: Options, s: State) {
    && (s.writing ==> s.out != "")
    && (!s.closed ==> (s.writing <==> s.out != ""))
    && (s.status == Disconnected && o.givesUp ==> !s.writing)
    && (s.status == Disconnected ==> s.closed)
    && (s.closed ==> s.status == Disconnected || s.status == Disconnecting)
  }

  lemma KeepIntact(o: Options, s: State, message: string, n: nat)
    requires n <= |message| && s.wire + s.out == Concat(s.accepted) + message[..n]
    ensures Intact(Keep(o, s, message, n))
  {
    ConcatPush(s.accepted, message);
    Rejoin(s.wire, s.out, Concat(s.accepted), message, n);
    assert n == |message| ==> message[..n] == message;
  }

  lemma Rejoin(wire: string, out: string, all: string, message: string, n: nat)
    requires n <= |message| && wire + out == all + message[..n]
    ensures wire + (out + message[n..]) == all + message
  {
    calc {
      wire + (out + message[n..]);
      (wire + out) + message[n..];
      (all + message[..n]) + message[n..];
      all + (message[..n] + message[n..]);
      { assert message[..n] + message[n..] == message; }
      all + message;
    }
  }

  lemma SendIntact(o: Options, s: State, message: string, r: WriteResult)
    requires Intact(s) && (r.Wrote? ==> r.n <= |message|)
    ensures Intact(SendStep(o, s, message, r))
  {
    assert Concat(s.accepted) + message[..0] == Concat(s.accepted);
    if !s.writing && s.out == "" && r.Wrote? {
      assert s.wire + s.out == s.wire;
      assert (s.wire + message[..r.n]) + s.out == Concat(s.accepted) + message[..r.n];
      KeepIntact(o, s.(wire := s.wire + message[..r.n]), message, r.n);
    } else {
      KeepIntact(o, s, message, 0);
    }
  }

  lemma WriteIntact(o: Options, s: State, r: WriteResult)
    requires Intact(s) && (r.Wrote? ==> r.n <= |s.out|)
    ensures Intact(WriteStep(o, s, r))
  {
    if r.Wrote? {
      assert s.wire + s.out[..r.n] + s.out[r.n..] == s.wire + s.out;
    }
  }

  lemma StepKeepsStream(o: Options, s: State, a: Action)
    requires Intact(s)
    ensures Intact(Next(o, s, a))
  {
    if Enabled(s, a) {
      match a
      case Send(message, r) => SendIntact(o, s, message, r);
      case RunQueuedSend(message, r) => SendIntact(o, s, message, r);
      case Writable(r) => WriteIntact(o, s, r);
      case _ =>
    }
  }

  lemma StepKeepsInterest(o: Options, s: State, a: Action)
    requires InterestFits(o, s)
    ensures InterestFits(o, Next(o, s, a))
  {
  }

  // ---- what was sent, told from the calls alone ----

  /** The message that a step sends: sends on the loop thread need a connection that is up. */
  function SentBy(o: Options, s: State, a: Action): seq<string> {
    if a.Send? && Enabled(s, a) && s.status == Connected then [a.message]
    else if a.RunQueuedSend? && Enabled(s, a) && !(o.givesUp && s.status == Disconnected) then [a.message]
    else []
  }

  /** The write call of the step failed for good, and the message with it. */
  predicate FailsForGood(s: State, a: Action) {
    && (a.Send? || a.RunQueuedSend?) && s.out == ""
    && a.result in {Failed(EPIPE), Failed(ECONNRESET)}
  }

  /** The step called write, and the call returned a count. */
  predicate WriteReturns(o: Options, s: State, a: Action) {
    match a
    case Send(_, r) => r.Wrote? && s.status == Connected && !s.writing && s.out == ""
    case RunQueuedSend(_, r) => r.Wrote? && !(o.givesUp && s.status == Disconnected) && !s.writing && s.out == ""
    case Writable(r) => r.Wrote? && s.writing
    case _ => false
  }

  /** All messages sent in a run. */
  function Sent(o: Options, run: seq<Action>): seq<string> {
    if run == [] then [] else
    var before, a := run[..|run| - 1], run[|run| - 1];
    Sent(o, before) + SentBy(o, Exec(o, before), a)
  }

  /** Those whose own write did not fail for good. */
  function Undropped(o: Options, run: seq<Action>): seq<string> {
    if run == [] then [] else
    var before, a := run[..|run| - 1], run[|run| - 1];
    Undropped(o, before) + if FailsForGood(Exec(o, before), a) then [] else SentBy(o, Exec(o, before), a)
  }

  /** The sum of what the write calls of a run returned. */
  function Returned(o: Options, run: seq<Action>): nat {
    if run == [] then 0 else
    var before, a := run[..|run| - 1], run[|run| - 1];
    var s := Exec(o, before);
    Returned(o, before) + if Enabled(s, a) && WriteReturns(o, s, a) then a.result.n else 0
  }

  predicate NoFatal(a: Action) {
    a.Send? || a.RunQueuedSend? || a.Writable? ==> a.result !in {Failed(EPIPE), Failed(ECONNRESET)}
  }

  lemma SendCounts(o: Options, s: State, message: string, r: WriteResult)
    requires InterestFits(o, s) && (r.Wrote? ==> r.n <= |message|)
    ensures var t, a := SendStep(o, s, message, r), RunQueuedSend(message, r);
            var sent := if o.givesUp && s.status == Disconnected then [] else [message];
            && t.offered == s.offered + sent && t.accepted == s.accepted + (if FailsForGood(s, a) then [] else sent)
            && |t.wire| == |s.wire| + if WriteReturns(o, s, a) then r.n else 0
  {
  }

  lemma StepCounts(o: Options, s: State, a: Action)
    requires InterestFits(o, s)
    ensures var t := Next(o, s, a);
            && t.offered == s.offered + SentBy(o, s, a)
            && t.accepted == s.accepted + (if FailsForGood(s, a) then [] else SentBy(o, s, a))
            && |t.wire| == |s.wire| + if Enabled(s, a) && WriteReturns(o, s, a) then a.result.n else 0
  {
    if Enabled(s, a) {
      match a
      case Send(message, r) => SendCounts(o, s, message, r);
      case RunQueuedSend(message, r) => SendCounts(o, s, message, r);
      case _ =>
    }
  }

  /**
   In every run, in either form and with sends from any thread: what is on the wire followed by
   the output buffer is the concatenation, in order, of all messages sent but those whose own write
   failed for good; the wire holds as many bytes as the write calls returned; without a fatal error
   nothing that was sent is missing; and until the connection is closed the write interest is on
   exactly when the buffer is not empty.
   */
  lemma {:induction false} StreamIsIntact(o: Options, run: seq<Action>)
    ensures var s := Exec(o, run);
            && s.wire + s.out == Concat(s.accepted)
            && s.accepted == Undropped(o, run) && s.offered == Sent(o, run) && |s.wire| == Returned(o, run)
            && ((forall a :: a in run ==> NoFatal(a)) ==> s.accepted == Sent(o, run))
            && InterestFits(o, s)
    decreases |run|
  {
    if run != [] {
      var before, a := run[..|run| - 1], run[|run| - 1];
      StreamIsIntact(o, before);
      StepKeepsStream(o, Exec(o, before), a);
      StepKeepsInterest(o, Exec(o, before), a);
      StepCounts(o, Exec(o, before), a);
      assert a in run && forall b :: b in before ==> b in run;
    }
  }

  /** So the wire and the buffer are told by the calls and what the writes returned. */
  lemma WireIsWhatWasSent(o: Options, run: seq<Action>)
    ensures var s, all, n := Exec(o, run), Concat(Undropped(o, run)), Returned(o, run);
            n <= |all| && s.wire == all[..n] && s.out == all[n..]
  {
    StreamIsIntact(o, run);
  }

  /** Of all steps only these move the state of the connection: no send and no writable event does. */
  lemma StatusMoves(o: Options, s: State, a: Action)
    requires Enabled(s, a)
    ensures Next(o, s, a).status
         == match a
            case Establish => Connected
            case Shutdown => if s.status == Connected then Disconnecting else s.status
            case StoreElsewhere => Disconnecting
            case Close => Disconnected
            case Destroy => if s.status == Connected then Disconnected else s.status
            case _ => s.status
  {
  }

  // ---- the callbacks ----

  function Queued(o: Options, s: State, t: State, a: Action): seq<Task> {
    (if o.writeComplete && WriteReturns(o, s, a) && t.out == "" then [WriteComplete] else [])
    + (if |s.out| < o.highWaterMark && o.highWaterMark <= |t.out| then [HighWater(|t.out|)] else [])
  }

  lemma KeepCallbacks(o: Options, s: State, message: string, n: nat)
    requires n <= |message|
    ensures var t := Keep(o, s, message, n);
            && t.tasks == s.tasks + (if |s.out| < o.highWaterMark && o.highWaterMark <= |t.out| then [HighWater(|t.out|)] else [])
            && |t.out| == |s.out| + (|message| - n)
  {
  }

  lemma SendCallbacks(o: Options, s: State, message: string, r: WriteResult)
    requires InterestFits(o, s) && (r.Wrote? ==> r.n <= |message|)
    ensures var t := SendStep(o, s, message, r);
            t.tasks == s.tasks + Queued(o, s, t, RunQueuedSend(message, r))
  {
    if !s.writing && s.out == "" && r.Wrote? {
      KeepCallbacks(o, s.(wire := s.wire + message[..r.n],
                          tasks := if r.n == |message| && o.writeComplete then s.tasks + [WriteComplete] else s.tasks),
                    message, r.n);
    } else {
      KeepCallbacks(o, s, message, 0);
    }
  }

  lemma WriteCallbacks(o: Options, s: State, r: WriteResult)
    requires InterestFits(o, s) && (r.Wrote? ==> r.n <= |s.out|)
    ensures var t := WriteStep(o, s, r);
            t.tasks == s.tasks + Queued(o, s, t, Writable(r))
  {
  }

  lemma StepCallbacks(o: Options, s: State, a: Action)
    requires InterestFits(o, s) && Enabled(s, a)
    ensures Next(o, s, a).tasks == s.tasks + Queued(o, s, Next(o, s, a), a)
  {
    match a
    case Send(message, r) => SendCallbacks(o, s, message, r);
    case RunQueuedSend(message, r) => SendCallbacks(o, s, message, r);
    case Writable(r) => WriteCallbacks(o, s, r);
    case _ =>
  }

  /**
   A step queues write-complete exactly when it wrote and everything accepted is then on the wire,
   and the high-water callback exactly when the buffer crosses the mark upward, with its new length.
   */
  lemma CallbacksIff(o: Options, run: seq<Action>, a: Action)
    requires Enabled(Exec(o, run), a)
    ensures var s, t := Exec(o, run), Exec(o, run + [a]);
            var wrote := o.writeComplete && WriteReturns(o, s, a) && t.wire == Concat(t.accepted);
            var crossed := |s.out| < o.highWaterMark && o.highWaterMark <= |t.out|;
            t.tasks == s.tasks + (if wrote then [WriteComplete] else []) + (if crossed then [HighWater(|t.out|)] else [])
  {
    var s := Exec(o, run);
    assert (run + [a])[..|run|] == run;
    var t := Next(o, s, a);
    StreamIsIntact(o, run);
    StreamIsIntact(o, run + [a]);
    StepCallbacks(o, s, a);
    assert t.wire == Concat(t.accepted) <==> t.out == "" by {
      assert |t.wire| + |t.out| == |Concat(t.accepted)|;
    }
  }

  // ---- the write interest and the state ----

  /** What the state alone says of the write interest. */
  predicate InterestByStatus(s: State) {
    s.status != Disconnected ==> (s.writing <==> s.out != "")
  }

  /** A store by shutdown() on another thread that finds bytes which no write is pending for. */
  predicate StoresLate(s: State, a: Action) {
    a.StoreElsewhere? && s.out != "" && !s.writing
  }

  lemma StoresLateIff(o: Options, s: State, a: Action)
    requires InterestFits(o, s) && InterestByStatus(s) && Enabled(s, a)
    ensures InterestByStatus(Next(o, s, a)) <==> !StoresLate(s, a)
  {
  }

  predicate NeverLate(o: Options, run: seq<Action>) {
    run != [] ==> NeverLate(o, run[..|run| - 1]) && !StoresLate(Exec(o, run[..|run| - 1]), run[|run| - 1])
  }

  /**
   In every run without a late store, the write interest of a connection that is not disconnected is on
   exactly when its buffer is not empty; and the next step keeps this exactly when it is not one.
   */
  lemma {:induction false} InterestByStatusIff(o: Options, run: seq<Action>, a: Action)
    requires NeverLate(o, run) && Enabled(Exec(o, run), a)
    ensures InterestByStatus(Exec(o, run))
    ensures InterestByStatus(Exec(o, run + [a])) <==> !StoresLate(Exec(o, run), a)
    decreases |run|
  {
    assert (run + [a])[..|run|] == run;
    StreamIsIntact(o, run);
    NeverLateFits(o, run);
    StoresLateIff(o, Exec(o, run), a);
  }

  lemma {:induction false} NeverLateFits(o: Options, run: seq<Action>)
    requires NeverLate(o, run)
    ensures InterestByStatus(Exec(o, run))
    decreases |run|
  {
    if run != [] {
      var before, a := run[..|run| - 1], run[|run| - 1];
      NeverLateFits(o, before);
      StreamIsIntact(o, before);
      if Enabled(Exec(o, before), a) {
        StoresLateIff(o, Exec(o, before), a);
      }
    }
  }

  /** For example a store after a close that left a byte unsent. */
  lemma LateStoreExample(o: Options)
    ensures var s := Exec(o, [Establish, Send("x", Wrote(0)), ReadElsewhere, Close, StoreElsewhere]);
            s.status == Disconnecting && s.out == "x" && !s.writing
  {
    var run := [Establish, Send("x", Wrote(0)), ReadElsewhere, Close, StoreElsewhere];
    Prefixes(o, run);
    OneByteQueued(o, run);
  }

  lemma OneByteQueued(o: Options, run: seq<Action>)
    requires |run| >= 2 && run[0] == Establish && run[1] == Send("x", Wrote(0))
    ensures var s := Exec(o, run[..2]);
            s.status == Connected && s.out == "x" && s.writing && s.shutdowns == 0 && s.readers == 0 && s.due == 0
  {
    Prefixes(o, run);
    assert Exec(o, run[..1]) == INIT.(status := Connected);
    assert "x"[0..] == "x" && "" + "x" == "x";
  }

  /** A short run, one step at a time. */
  lemma Prefixes(o: Options, run: seq<Action>)
    ensures forall k :: 0 <= k < |run| ==> Exec(o, run[..k + 1]) == Next(o, Exec(o, run[..k]), run[k])
    ensures Exec(o, run[..0]) == INIT && Exec(o, run[..|run|]) == Exec(o, run)
  {
    forall k | 0 <= k < |run| ensures Exec(o, run[..k + 1]) == Next(o, Exec(o, run[..k]), run[k]) {
      assert run[..k + 1][..k] == run[..k];
    }
    assert run[..|run|] == run;
  }

  // ---- graceful shutdown ----

  /** shutdownwrite at most once, with everything accepted before shutdown() on the wire. */
  predicate Safe(s: State) {
    s.shutdowns <= 1 && (s.shutdowns == 1 ==> s.asked.Some? && Concat(s.asked.value) <= s.wire)
  }

  /**
   The one step that can go wrong: a shutdownInLoop queued by another thread finds no write pending,
   although the write side was shut down before or bytes that it is to wait for are unsent.
   */
  predicate Orderly(s: State, a: Action) {
    a.RunQueuedShutdown? && s.due > 0 && !s.writing ==>
      s.shutdowns == 0 && s.asked.Some? && Concat(s.asked.value) <= s.wire
  }

  predicate OrderlyRun(o: Options, s: State, run: seq<Action>) {
    run != [] ==> OrderlyRun(o, s, run[..|run| - 1]) && Orderly(ExecFrom(o, s, run[..|run| - 1]), run[|run| - 1])
  }

  predicate Ordered(s: State) {
    && Safe(s)
    && (s.asked.None? ==> s.shutdowns == 0 && s.due == 0)
    && (s.status in {Connecting, Connected} ==> s.asked.None?)
    && (s.status == Disconnecting ==> s.asked.Some?)
    && (s.asked.Some? ==> s.asked.value <= s.accepted)
    && (s.status == Disconnecting && s.due == 0 && !s.closed && s.out == "" ==> s.shutdowns == 1)
  }

  predicate Kept(o: Options, s: State) {
    Intact(s) && InterestFits(o, s) && Ordered(s)
  }

  lemma ConcatPrefix(a: seq<string>, b: seq<string>)
    requires a <= b
    ensures Concat(a) <= Concat(b)
  {
    assert b == a + b[|a|..];
    ConcatSplit(a, b[|a|..]);
  }

  /** When nothing is buffered, everything asked for is on the wire. */
  lemma DrainedIsSent(s: State)
    requires Intact(s) && s.out == "" && s.asked.Some? && s.asked.value <= s.accepted
    ensures Concat(s.asked.value) <= s.wire
  {
    ConcatPrefix(s.asked.value, s.accepted);
    assert s.wire + s.out == s.wire;
  }

  lemma SendGrows(o: Options, s: State, message: string, r: WriteResult)
    requires r.Wrote? ==> r.n <= |message|
    ensures var t := SendStep(o, s, message, r);
            && s.wire <= t.wire && s.accepted <= t.accepted && (t.out == "" ==> s.out == "")
            && t.status == s.status && t.shutdowns == s.shutdowns && t.asked == s.asked && t.due == s.due && t.closed == s.closed
  {
  }

  lemma SendKeepsOrder(o: Options, s: State, message: string, r: WriteResult)
    requires Kept(o, s) && (r.Wrote? ==> r.n <= |message|)
    ensures Ordered(SendStep(o, s, message, r))
  {
    SendGrows(o, s, message, r);
  }

  lemma WriteKeepsOrder(o: Options, s: State, r: WriteResult)
    requires Kept(o, s) && Possible(s, r, |s.out|)
    ensures Ordered(WriteStep(o, s, r))
  {
    var t := WriteStep(o, s, r);
    WriteIntact(o, s, r);
    assert s.wire <= t.wire && s.accepted == t.accepted && s.asked == t.asked;
    if t.out == "" && t.asked.Some? {
      DrainedIsSent(t);
    }
  }

  lemma ShutdownKeepsOrder(o: Options, s: State)
    requires Kept(o, s)
    ensures Ordered(Next(o, s, Shutdown))
  {
    if s.status == Connected && s.out == "" {
      DrainedIsSent(Ask(s));
    }
  }

  lemma StepKeepsOrder(o: Options, s: State, a: Action)
    requires Kept(o, s) && Orderly(s, a)
    ensures Kept(o, Next(o, s, a))
  {
    StepKeepsStream(o, s, a);
    StepKeepsInterest(o, s, a);
    if Enabled(s, a) {
      match a
      case Send(message, r) => if s.status == Connected { SendKeepsOrder(o, s, message, r); }
      case RunQueuedSend(message, r) => SendKeepsOrder(o, s, message, r);
      case Writable(r) => WriteKeepsOrder(o, s, r);
      case Shutdown => ShutdownKeepsOrder(o, s);
      case _ =>
    }
  }

  lemma {:induction false} OrderlyRunsKeep(o: Options, s: State, run: seq<Action>)
    requires Kept(o, s) && OrderlyRun(o, s, run)
    ensures Kept(o, ExecFrom(o, s, run))
    decreases |run|
  {
    if run != [] {
      OrderlyRunsKeep(o, s, run[..|run| - 1]);
      StepKeepsOrder(o, ExecFrom(o, s, run[..|run| - 1]), run[|run| - 1]);
    }
  }

  lemma InitKept(o: Options)
    ensures Kept(o, INIT)
  {
  }

  /**
   With sends and shutdown() on any threads, in every run in which each queued shutdownInLoop is
   orderly: shutdownwrite happens at most once, with every byte accepted before shutdown() on the
   wire; and on an unclosed connection that is shutting down, with no shutdownInLoop queued, it
   has happened or the write that is pending will perform it.
   */
  lemma GracefulShutdown(o: Options, run: seq<Action>)
    requires OrderlyRun(o, INIT, run)
    ensures var s := Exec(o, run);
            && s.shutdowns <= 1
            && (s.shutdowns == 1 ==> s.asked.Some? && Concat(s.asked.value) <= s.wire)
            && (s.status == Disconnecting && !s.closed && s.due == 0 ==> s.shutdowns == 1 || s.writing)
  {
    InitKept(o);
    OrderlyRunsKeep(o, INIT, run);
  }

  /** A step that is not orderly is unsafe at once. */
  lemma DisorderlyGoesWrong(o: Options, s: State, a: Action) returns (more: seq<Action>)
    requires Kept(o, s) && Enabled(s, a) && !Orderly(s, a)
    ensures var t := Next(o, s, a); OrderlyRun(o, t, more) && !Safe(ExecFrom(o, t, more))
  {
    more := [];
  }

  /**
   The condition is exact: after any step of a run that was orderly so far, every orderly
   continuation stays safe if and only if the step was orderly.
   */
  lemma OrderlyIff(o: Options, run: seq<Action>, a: Action)
    requires OrderlyRun(o, INIT, run) && Enabled(Exec(o, run), a)
    ensures var t := Next(o, Exec(o, run), a);
            (forall more :: OrderlyRun(o, t, more) ==> Safe(ExecFrom(o, t, more))) <==> Orderly(Exec(o, run), a)
  {
    var s := Exec(o, run);
    var t := Next(o, s, a);
    InitKept(o);
    OrderlyRunsKeep(o, INIT, run);
    if Orderly(s, a) {
      StepKeepsOrder(o, s, a);
      forall more | OrderlyRun(o, t, more) ensures Safe(ExecFrom(o, t, more)) {
        OrderlyRunsKeep(o, t, more);
      }
    } else {
      var more := DisorderlyGoesWrong(o, s, a);
    }
  }

  /** Issued on the loop thread. */
  predicate OnLoop(a: Action) {
    !a.RunQueuedSend? && !a.ReadElsewhere? && !a.StoreElsewhere? && !a.RunQueuedShutdown?
  }

  /** No other thread has asked, and nothing was accepted after shutdown(). */
  predicate Alone(s: State) {
    && s.readers == 0 && s.due == 0 && (s.status == Disconnecting ==> !s.closed) && (s.asked.Some? ==> s.asked.value == s.accepted)
    && (s.shutdowns == 1 ==> s.out == "")
  }

  lemma OnLoopStep(o: Options, s: State, a: Action)
    requires Kept(o, s) && Alone(s) && OnLoop(a)
    ensures Orderly(s, a) && Alone(Next(o, s, a))
  {
  }

  lemma {:induction false} OnLoopRun(o: Options, run: seq<Action>)
    requires forall a :: a in run ==> OnLoop(a)
    ensures OrderlyRun(o, INIT, run) && Kept(o, Exec(o, run)) && Alone(Exec(o, run))
    decreases |run|
  {
    if run == [] {
      InitKept(o);
    } else {
      var before, a := run[..|run| - 1], run[|run| - 1];
      assert a in run && forall b :: b in before ==> b in run;
      OnLoopRun(o, before);
      OnLoopStep(o, Exec(o, before), a);
      StepKeepsOrder(o, Exec(o, before), a);
    }
  }

  /**
   Calls on the loop thread are orderly, whatever the writes return, and nothing is accepted
   after shutdown(): when the write side is shut down the wire holds exactly what was asked for,
   and while the connection is shutting down that has happened exactly when the buffer is empty.
   */
  lemma OnLoopIsOrderly(o: Options, run: seq<Action>)
    requires forall a :: a in run ==> OnLoop(a)
    ensures OrderlyRun(o, INIT, run)
    ensures var s := Exec(o, run);
            && s.shutdowns <= 1 && (s.shutdowns == 1 ==> s.asked.Some? && s.wire == Concat(s.asked.value))
            && (s.status == Disconnecting ==> (s.shutdowns == 1 <==> s.out == ""))
  {
    OnLoopRun(o, run);
    var s := Exec(o, run);
    assert s.shutdowns == 1 ==> s.wire + s.out == s.wire;
  }

  /** What was asked for stays what it was at the first shutdown(). */
  lemma {:induction false} AskedOnce(o: Options, s: State, more: seq<Action>)
    requires s.asked.Some?
    ensures ExecFrom(o, s, more).asked == s.asked
    decreases |more|
  {
    if more != [] {
      AskedOnce(o, s, more[..|more| - 1]);
      StepKeepsAsked(o, ExecFrom(o, s, more[..|more| - 1]), more[|more| - 1]);
    }
  }

  lemma StepKeepsAsked(o: Options, s: State, a: Action)
    requires s.asked.Some?
    ensures Next(o, s, a).asked == s.asked
  {
  }

  /** Every connection that is up heeds shutdown(), on the loop thread or not, and waits for what was accepted before. */
  lemma ShutdownIsHeeded(o: Options, run: seq<Action>, more: seq<Action>)
    requires OrderlyRun(o, INIT, run) && Exec(o, run).status == Connected
    ensures var s := Exec(o, run);
            var t := Next(o, s, Shutdown);
            && t.status == Disconnecting && t.shutdowns == (if s.out == "" then 1 else 0)
            && (OrderlyRun(o, t, more) && ExecFrom(o, t, more).shutdowns > 0 ==> Concat(s.accepted) <= ExecFrom(o, t, more).wire)
    ensures var s := Next(o, Exec(o, run), ReadElsewhere);
            var t := Next(o, s, StoreElsewhere);
            && t.status == Disconnecting && t.due > s.due
            && (OrderlyRun(o, t, more) && ExecFrom(o, t, more).shutdowns > 0 ==> Concat(s.accepted) <= ExecFrom(o, t, more).wire)
  {
    InitKept(o);
    OrderlyRunsKeep(o, INIT, run);
    var s := Exec(o, run);
    var t, u := Next(o, s, Shutdown), Next(o, Next(o, s, ReadElsewhere), StoreElsewhere);
    StepKeepsOrder(o, s, Shutdown);
    StepKeepsOrder(o, s, ReadElsewhere);
    StepKeepsOrder(o, Next(o, s, ReadElsewhere), StoreElsewhere);
    AskedOnce(o, t, more);
    AskedOnce(o, u, more);
    if OrderlyRun(o, t, more) { OrderlyRunsKeep(o, t, more); }
    if OrderlyRun(o, u, more) { OrderlyRunsKeep(o, u, more); }
  }

  /** If bytes were queued, the writable event that drains them performs the shutdown. */
  lemma DrainShutsDown(o: Options, run: seq<Action>)
    requires OrderlyRun(o, INIT, run)
    requires var s := Exec(o, run); s.status == Disconnecting && !s.closed && s.out != "" && s.shutdowns == 0
    ensures var s := Exec(o, run);
            var t := Exec(o, run + [Writable(Wrote(|s.out|))]);
            Enabled(s, Writable(Wrote(|s.out|))) && t.shutdowns == 1 && s.asked.Some? && Concat(s.asked.value) <= t.wire
  {
    var s := Exec(o, run);
    var a := Writable(Wrote(|s.out|));
    InitKept(o);
    OrderlyRunsKeep(o, INIT, run);
    StepKeepsOrder(o, s, a);
    assert (run + [a])[..|run|] == run;
    assert s.out[|s.out|..] == "";
  }

  /** shutdown() on another thread can have the write side shut down twice: the drain overtakes its task. */
  lemma DrainOvertakes(o: Options, s: State)
    requires s.status == Connected && s.writing && |s.out| == 1 && s.shutdowns == 0
    ensures var asked := Next(o, Next(o, s, ReadElsewhere), StoreElsewhere);
            Next(o, Next(o, asked, Writable(Wrote(1))), RunQueuedShutdown).shutdowns == 2
  {
    assert s.out[1..] == "";
  }

  lemma ShutdownElsewhereExample(o: Options)
    ensures Exec(o, [Establish, Send("x", Wrote(0)), ReadElsewhere, StoreElsewhere, Writable(Wrote(1)), RunQueuedShutdown]).shutdowns == 2
  {
    var run := [Establish, Send("x", Wrote(0)), ReadElsewhere, StoreElsewhere, Writable(Wrote(1)), RunQueuedShutdown];
    OneByteQueued(o, run);
    DrainOvertakes(o, Exec(o, run[..2]));
    Prefixes(o, run);
    assert Exec(o, run[..3]) == Next(o, Exec(o, run[..2]), ReadElsewhere);
    assert Exec(o, run[..4]) == Next(o, Exec(o, run[..3]), StoreElsewhere);
    assert Exec(o, run[..5]) == Next(o, Exec(o, run[..4]), Writable(Wrote(1)));
  }

  // ---- sendInLoop without the return ----

  /**
   Without the return, sendInLoop agrees with the other form until the connection is disconnected.
   From then on it turns the write interest of the dead channel on exactly when a message stays
   unwritten: the buffer was not empty, or the write neither took it whole nor failed fatally.
   */
  lemma AsWrittenIff(o: Options, s: State, message: string, r: WriteResult)
    requires o.givesUp && InterestFits(o, s) && (r.Wrote? ==> r.n <= |message|)
    ensures var t, u := SendStep(o, s, message, r), SendStep(o.(givesUp := false), s, message, r);
            && (s.status != Disconnected ==> t == u)
            && (s.status == Disconnected ==>
                  (u.writing <==> message != "" && (s.out != "" || !(Fatal(r) || r == Wrote(|message|)))))
  {
  }

  // ---- the object ----

  class TcpConnection {
    const options: Options
    const outputBuffer: Buffer
    var state: Status
    var writing: bool
    /** What this connection queued in its loop, and how often it called shutdownwrite. */
    var queued: seq<Task>
    var shutdowns: nat
    ghost var wire: string
    ghost var offered: seq<string>
    ghost var accepted: seq<string>
    ghost var asked: Option<seq<string>>
    ghost var closed: bool
    /** Calls of shutdown() on other threads: those that read the state, and those queued here. */
    var readers: nat
    var due: nat

    ghost predicate Valid()
      reads this, outputBuffer
    {
      outputBuffer.Valid()
    }

    ghost function Abs(): State
      reads this, outputBuffer, outputBuffer.data
      requires Valid()
    {
      State(state, writing, outputBuffer.Contents(), queued, wire, offered, accepted, shutdowns, asked, closed, readers, due)
    }

    constructor (options: Options)
      ensures Valid() && Abs() == INIT && this.options == options && fresh(outputBuffer) && fresh(outputBuffer.data)
    {
      this.options := options;
      outputBuffer := new Buffer();
      state, writing, queued, shutdowns := Connecting, false, [], 0;
      wire, offered, accepted, asked, closed, readers, due := "", [], [], None, false, 0, 0;
    }

    method ConnectEstablished()
      requires Valid() && state == Connecting
      modifies this`state
      ensures Valid() && Abs() == Next(options, old(Abs()), Establish)
    {
      state := Connected;
    }

    /** send, on the loop thread. */
    method Send(message: string, result: WriteResult)
      requires Valid() && Possible(Abs(), result, |message|)
      modifies this, outputBuffer, outputBuffer.data
      ensures Valid() && (outputBuffer.data == old(outputBuffer.data) || fresh(outputBuffer.data))
      ensures Abs() == Next(options, old(Abs()), Action.Send(message, result))
    {
      if state == Connected {
        SendInLoop(message, result);
      }
    }

    /** result is what the write call returns, if it is made. */
    method SendInLoop(message: string, result: WriteResult)
      requires Valid() && Possible(Abs(), result, |message|)
      modifies this, outputBuffer, outputBuffer.data
      ensures Valid() && (outputBuffer.data == old(outputBuffer.data) || fresh(outputBuffer.data))
      ensures Abs() == SendStep(options, old(Abs()), message, result)
      ensures Abs() == Next(options, old(Abs()), RunQueuedSend(message, result))
    {
      if options.givesUp && state == Disconnected {
        return;
      }
      offered := offered + [message];
      var nwrote, faultError := 0, false;
      if !writing && outputBuffer.ReadableBytes() == 0 {
        if result.Wrote? {
          nwrote := result.n;
          wire := wire + message[..nwrote];
          if nwrote == |message| && options.writeComplete {
            queued := queued + [WriteComplete];
          }
        } else if result.errno != EWOULDBLOCK {
          faultError := result.errno == EPIPE || result.errno == ECONNRESET;
        }
      }
      if !faultError {
        KeepRest(message, nwrote);
      }
    }

    /** What the write left goes to the buffer. */
    method KeepRest(message: string, nwrote: nat)
      requires Valid() && nwrote <= |message|
      modifies this`queued, this`accepted, this`writing, outputBuffer, outputBuffer.data
      ensures Valid() && (outputBuffer.data == old(outputBuffer.data) || fresh(outputBuffer.data))
      ensures Abs() == Keep(options, old(Abs()), message, nwrote)
    {
      accepted := accepted + [message];
      var remaining := |message| - nwrote;
      if remaining > 0 {
        var oldlen := outputBuffer.ReadableBytes();
        if oldlen + remaining >= options.highWaterMark && oldlen < options.highWaterMark {
          queued := queued + [HighWater(oldlen + remaining)];
        }
        outputBuffer.Append(message[nwrote..]);
        if !writing {
          writing := true;
        }
      }
    }

    method HandleWrite(result: WriteResult)
      requires Valid() && Possible(Abs(), result, |Abs().out|)
      modifies this`wire, this`writing, this`queued, this`shutdowns, outputBuffer`reader, outputBuffer`writer
      ensures Valid() && Abs() == Next(options, old(Abs()), Writable(result))
    {
      if writing {
        if result.Wrote? && result.n > 0 {
          var bytes := outputBuffer.WriteFd();
          wire := wire + bytes[..result.n];
          outputBuffer.Retrieve(result.n);
          if outputBuffer.ReadableBytes() == 0 {
            writing := false;
            if options.writeComplete {
              queued := queued + [WriteComplete];
            }
            if state == Disconnecting {
              ShutdownInLoop();
            }
          }
        } else if state == Disconnecting {
          ShutdownInLoop();
        }
      }
    }

    /** shutdown, on the loop thread. */
    method Shutdown()
      requires Valid()
      modifies this`state, this`asked, this`shutdowns
      ensures Valid() && Abs() == Next(options, old(Abs()), Action.Shutdown)
    {
      if state == Connected {
        state, asked := Disconnecting, if asked.Some? then asked else Some(accepted);
        ShutdownInLoop();
      }
    }

    method ShutdownInLoop()
      requires Valid()
      modifies this`shutdowns
      ensures Valid() && Abs() == ShutdownStep(old(Abs()))
    {
      if !writing {
        shutdowns := shutdowns + 1;
      }
    }

    /** shutdown on another thread: the test of the state. */
    method ReadState()
      requires Valid()
      modifies this`readers
      ensures Valid() && Abs() == Next(options, old(Abs()), ReadElsewhere)
    {
      if state == Connected {
        readers := readers + 1;
      }
    }

    /** Its store, and the queueing of shutdownInLoop. */
    method StoreState()
      requires Valid() && readers > 0
      modifies this`state, this`asked, this`readers, this`due
      ensures Valid() && Abs() == Next(options, old(Abs()), StoreElsewhere)
    {
      state, asked := Disconnecting, if asked.Some? then asked else Some(accepted);
      readers, due := readers - 1, due + 1;
    }

    /** The loop runs the queued shutdownInLoop. */
    method RunShutdown()
      requires Valid() && due > 0
      modifies this`shutdowns, this`due
      ensures Valid() && Abs() == Next(options, old(Abs()), RunQueuedShutdown)
    {
      due := due - 1;
      ShutdownInLoop();
    }

    /** handleClose, up to its callbacks. */
    method HandleClose()
      requires Valid()
      modifies this`state, this`writing, this`closed
      ensures Valid() && Abs() == Next(options, old(Abs()), Close)
    {
      state, writing, closed := Disconnected, false, true;
    }

    /** connectDestoryed, as far as the stream is concerned. */
    method ConnectDestroyed()
      requires Valid()
      modifies this`state, this`writing, this`closed
      ensures Valid() && Abs() == Next(options, old(Abs()), Destroy)
    {
      if state == Connected {
        state, writing, closed := Disconnected, false, true;
      }
    }
  }
}
