/**
 The asynchronous logger (myTinymuduo/base/Aslogging.cpp): appenders fill a front buffer under
 a lock, a writer thread exchanges the full buffers for recycled ones and writes them out.

 A unique_ptr to a buffer is an option of its contents.  The actions are the regions that the
 lock makes atomic and the unlocked steps of the writer; a run is any sequence of actions.  The
 file is what LogFile has been given.

 Recycling follows the source's asserts: the buffer that becomes a spare is emptied, and the
 vector of written buffers is cut to two.  What the statements as written do instead (the
 pointer is reset, the vector is only reserved) is a step relation of its own, NextAsWritten.
 */
module AsyncLogging {
  import opened Prelude
  import LogStream

  /** KLargeBuffer */
  const SIZE: nat := 4000 * 1000

  type Buffer = string

  datatype Phase = Head | Waiting | Writing | Stopped

  datatype State = State(
    current: Option<Buffer>,     // currentBuffer_
    next: Option<Buffer>,        // nextBuffer_
    buffers: seq<Buffer>,        // buffers_
    running: bool,
    // locals of threadFunc
    phase: Phase,                // Head: before while(running_); Waiting: past it; Writing: after the exchange
    spare1: Option<Buffer>,      // newBUffer1
    spare2: Option<Buffer>,      // newBUffer2
    toWrite: seq<Buffer>,        // buffersToWrite
    written: nat,                // how many of them are in the file
    file: string,
    // what an observer of the lock has seen: the lines shorter than a buffer, in lock order, and
    // those of them that were logged when the writer last took the lock
    logged: string,
    cut: string)

  const INIT := State(Some(""), Some(""), [], true, Head, Some(""), Some(""), [], 0, "", "", "")

  datatype Action =
    | Append(line: string)       // append, whole: it holds the lock throughout
    | Stop                       // running_ = false
    | Enter                      // while(running_): a stop may come later, during the wait
    | Exchange                   // the locked block of threadFunc
    | WriteOne                   // one turn of the loop over buffersToWrite
    | Recycle                    // from there to the end of the turn
    | Leave                      // the loop ends

  predicate Enabled(s: State, a: Action) {
    match a
    case Append(_) => s.current.Some?                       // or a null pointer is followed
    case Stop => true
    case Enter => s.phase == Head && s.running
    case Exchange => s.phase == Waiting && s.current.Some?
    case WriteOne => s.phase == Writing && s.written < |s.toWrite|
    case Recycle => s.phase == Writing && s.written == |s.toWrite| && EnoughToRecycle(s)
    case Leave => s.phase == Head && !s.running
  }

  function Rotate(s: State): State
    requires s.current.Some?
  {
    s.(buffers := s.buffers + [s.current.value],
       current := if s.next.Some? then s.next else Some(""), next := None)
  }

  /** The current buffer takes the line, unless the line is too long for any buffer. */
  function Store(s: State, line: string): State
    requires s.current.Some?
  {
    s.(current := Some(LogStream.Appended(SIZE, s.current.value, line)),
       logged := if |line| < SIZE then s.logged + line else s.logged)
  }

  function ApplyAppend(s: State, line: string): State
    requires s.current.Some?
  {
    Store(if SIZE - |s.current.value| > |line| then s else Rotate(s), line)
  }

  function ApplyExchange(s: State): State
    requires s.current.Some?
  {
    var full := s.buffers + [s.current.value];
    var t := s.(current := s.spare1, spare1 := None, toWrite := full, buffers := [], phase := Writing, written := 0, cut := s.logged);
    if s.next.None? then t.(next := s.spare2, spare2 := None) else t
  }

  /** The buffers left after the cut to two. */
  function Kept(s: State): seq<Buffer> {
    if |s.toWrite| > 2 then s.toWrite[..2] else s.toWrite
  }

  function Missing(s: State): nat {
    (if s.spare1.None? then 1 else 0) + (if s.spare2.None? then 1 else 0)
  }

  /** back() and pop_back() are called once for each missing spare. */
  predicate EnoughToRecycle(s: State) {
    |Kept(s)| >= Missing(s)
  }

  /** newBUffer = move(back()), pop_back(), emptied. */
  function TakeBack(kept: seq<Buffer>, spare: Option<Buffer>): (seq<Buffer>, Option<Buffer>)
    requires spare.None? ==> kept != []
  {
    if spare.None? then (kept[..|kept| - 1], Some(kept[|kept| - 1][..0])) else (kept, spare)
  }

  function ApplyRecycle(s: State): State
    requires EnoughToRecycle(s)
  {
    var (kept1, spare1) := TakeBack(Kept(s), s.spare1);
    var (kept2, spare2) := TakeBack(kept1, s.spare2);
    s.(spare1 := spare1, spare2 := spare2, toWrite := [], written := 0, phase := Head)
  }

  function Apply(s: State, a: Action): State
    requires Enabled(s, a)
  {
    match a
    case Append(line) => ApplyAppend(s, line)
    case Stop => s.(running := false)
    case Enter => s.(phase := Waiting)
    case Exchange => ApplyExchange(s)
    case WriteOne => s.(file := s.file + s.toWrite[s.written], written := s.written + 1)
    case Recycle => ApplyRecycle(s)
    case Leave => s.(phase := Stopped)
  }

  /** An action that is not possible where it stands does nothing. */
  function Next(s: State, a: Action): State {
    if Enabled(s, a) then Apply(s, a) else s
  }

  function Exec(s: State, acts: seq<Action>): State
    decreases |acts|
  {
    if acts == [] then s else Exec(Next(s, acts[0]), acts[1..])
  }

  // ---- the invariant ----

  /** Everything logged that is not in the file yet, in order. */
  function Unwritten(s: State): string
    requires s.written <= |s.toWrite| && s.current.Some?
  {
    Concat(s.toWrite[s.written..]) + Concat(s.buffers) + s.current.value
  }

  predicate Spares(s: State) {
    && s.current.Some?
    && (s.next.None? ==> s.buffers != [])
    && (s.next.Some? ==> s.next.value == "")
    && match s.phase
       case Head => s.spare1 == Some("") && s.spare2 == Some("") && s.toWrite == []
       case Waiting => s.spare1 == Some("") && s.spare2 == Some("") && s.toWrite == []
       case Writing => s.spare1 == None && s.toWrite != [] &&
                       (if s.spare2.None? then |s.toWrite| >= 2 else s.spare2 == Some(""))
       case Stopped => s.toWrite == []
  }

  /** The file, with what a turn has still to write, is what was logged at the last exchange. */
  predicate CaughtUp(s: State)
    requires s.written <= |s.toWrite|
  {
    s.file + Concat(s.toWrite[s.written..]) == s.cut && s.cut <= s.logged
  }

  predicate Inv(s: State) {
    && Spares(s)
    && s.written <= |s.toWrite| && CaughtUp(s)
    && s.file + Unwritten(s) == s.logged
  }

  lemma RotateKeepsInv(s: State)
    requires Inv(s)
    ensures Inv(Rotate(s)) && Rotate(s).current == Some("")
  {
    ConcatPush(s.buffers, s.current.value);
    var todo := Concat(s.toWrite[s.written..]);
    assert Unwritten(Rotate(s)) == todo + (Concat(s.buffers) + s.current.value) + "" == Unwritten(s);
  }

  lemma StoreKeepsInv(s: State, line: string)
    requires Inv(s) && (SIZE - |s.current.value| > |line| || s.current.value == "")
    ensures Inv(Store(s, line))
  {
    if |line| < SIZE {
      assert Unwritten(Store(s, line)) == Unwritten(s) + line;
      assert s.file + (Unwritten(s) + line) == s.file + Unwritten(s) + line;
    }
  }

  lemma AppendKeepsInv(s: State, line: string)
    requires Inv(s)
    ensures Inv(ApplyAppend(s, line))
  {
    if SIZE - |s.current.value| > |line| {
      StoreKeepsInv(s, line);
    } else {
      RotateKeepsInv(s);
      StoreKeepsInv(Rotate(s), line);
    }
  }

  lemma ExchangeKeepsInv(s: State)
    requires Inv(s) && s.phase == Waiting
    ensures Inv(ApplyExchange(s))
  {
    ConcatPush(s.buffers, s.current.value);
    var t := ApplyExchange(s);
    assert t.toWrite[t.written..] == s.buffers + [s.current.value];
    assert Concat(t.buffers) == "" && t.current == Some("");
    assert Unwritten(t) == Concat(t.toWrite[t.written..]);
    assert s.toWrite[s.written..] == [] && Concat(s.toWrite[s.written..]) == "";
    assert Unwritten(s) == Concat(s.buffers) + s.current.value;
  }

  lemma WriteKeepsInv(s: State)
    requires Inv(s) && s.written < |s.toWrite|
    ensures Inv(s.(file := s.file + s.toWrite[s.written], written := s.written + 1))
  {
    var rest := s.toWrite[s.written..];
    assert rest[1..] == s.toWrite[s.written + 1..];
    assert Concat(rest) == s.toWrite[s.written] + Concat(s.toWrite[s.written + 1..]);
  }

  lemma RecycleKeepsInv(s: State)
    requires Inv(s) && s.phase == Writing && s.written == |s.toWrite|
    ensures EnoughToRecycle(s) && Inv(ApplyRecycle(s))
  {
    assert s.toWrite[s.written..] == [];
    assert ApplyRecycle(s).toWrite[0..] == [];
  }

  lemma StepKeepsInv(s: State, a: Action)
    requires Inv(s) && Enabled(s, a)
    ensures Inv(Apply(s, a))
  {
    match a
    case Append(line) => AppendKeepsInv(s, line);
    case Exchange => ExchangeKeepsInv(s);
    case WriteOne => WriteKeepsInv(s);
    case Recycle => RecycleKeepsInv(s);
    case _ =>
  }

  lemma {:induction false} RunsKeepInv(s: State, acts: seq<Action>)
    requires Inv(s)
    ensures Inv(Exec(s, acts))
    decreases |acts|
  {
    if acts != [] {
      if Enabled(s, acts[0]) {
        StepKeepsInv(s, acts[0]);
      }
      RunsKeepInv(Next(s, acts[0]), acts[1..]);
    }
  }

  lemma NothingToWrite(s: State)
    requires Spares(s) && s.written <= |s.toWrite| && CaughtUp(s) && s.phase != Writing
    ensures s.file == s.cut
  {
    assert s.toWrite[s.written..] == [];
    assert s.file + "" == s.file;
  }

  lemma InitInv()
    ensures Inv(INIT)
  {
    assert INIT.toWrite[0..] == [];
  }

  // ---- the theorems ----

  /** The lines shorter than a buffer, in the order their appends took the lock. */
  function Accepted(acts: seq<Action>): string {
    if acts == [] then "" else AcceptedLine(acts[0]) + Accepted(acts[1..])
  }

  function AcceptedLine(a: Action): string {
    if a.Append? && |a.line| < SIZE then a.line else ""
  }

  lemma Associate(a: string, b: string, c: string)
    ensures a + (b + c) == a + b + c
  {
  }

  lemma LoggedByStep(s: State, a: Action)
    requires Spares(s)
    ensures Next(s, a).logged == s.logged + AcceptedLine(a)
  {
    assert s.logged + "" == s.logged;
  }

  lemma {:induction false} LoggedIsAccepted(s: State, acts: seq<Action>)
    requires Inv(s)
    ensures Exec(s, acts).logged == s.logged + Accepted(acts)
    decreases |acts|
  {
    if acts != [] {
      LoggedByStep(s, acts[0]);
      if Enabled(s, acts[0]) {
        StepKeepsInv(s, acts[0]);
      }
      LoggedIsAccepted(Next(s, acts[0]), acts[1..]);
      Associate(s.logged, AcceptedLine(acts[0]), Accepted(acts[1..]));
    }
  }

  /**
   Conservation: at every step of every interleaving the file, the buffers the writer still
   holds, the full buffers and the current one make up, in order, exactly the lines accepted.
   So the file is always a prefix: nothing is duplicated, reordered or lost on the way.
   */
  lemma NothingLostOrReordered(acts: seq<Action>)
    ensures var s := Exec(INIT, acts);
            && s.current.Some? && s.written <= |s.toWrite|
            && s.file + Concat(s.toWrite[s.written..]) + Concat(s.buffers) + s.current.value == Accepted(acts)
            && s.file <= Accepted(acts)
  {
    InitInv();
    RunsKeepInv(INIT, acts);
    LoggedIsAccepted(INIT, acts);
    var s := Exec(INIT, acts);
    Regroup(s.file, Concat(s.toWrite[s.written..]), Concat(s.buffers), s.current.value);
  }

  lemma Regroup(a: string, b: string, c: string, d: string)
    ensures a + (b + c + d) == a + b + c + d
  {
  }

  /** At every loop head, and when the writer has stopped, the file is what was logged at the last exchange. */
  lemma FileIsLastExchange(acts: seq<Action>)
    ensures var s := Exec(INIT, acts);
            s.cut <= s.logged && (s.phase != Writing ==> s.file == s.cut)
  {
    InitInv();
    RunsKeepInv(INIT, acts);
    if Exec(INIT, acts).phase != Writing {
      NothingToWrite(Exec(INIT, acts));
    }
  }

  /**
   The spare buffers never run out: no appender meets a null pointer, the writer always has
   enough buffers to refill what it gave away, and at each loop head both spares are there, empty.
   */
  lemma SparesSuffice(acts: seq<Action>)
    ensures var s := Exec(INIT, acts);
            && s.current.Some? && (s.next.None? ==> s.buffers != [])
            && (s.phase == Writing && s.written == |s.toWrite| ==> Enabled(s, Recycle))
            && (s.phase == Head || s.phase == Waiting ==> s.spare1 == Some("") && s.spare2 == Some("") && s.toWrite == [])
  {
    InitInv();
    RunsKeepInv(INIT, acts);
    var s := Exec(INIT, acts);
    if s.phase == Writing && s.written == |s.toWrite| {
      RecycleKeepsInv(s);
    }
  }

  /** An append puts the current buffer aside exactly when the line does not fit into it, as it is and behind the others. */
  lemma PutAsideIff(acts: seq<Action>, line: string)
    ensures var s := Exec(INIT, acts);
            var t := Next(s, Append(line));
            && s.current.Some?
            && (t.buffers != s.buffers <==> SIZE <= |s.current.value| + |line|)
            && (t.buffers != s.buffers ==> t.buffers == s.buffers + [s.current.value] && t.next == None)
            && (t.buffers == s.buffers ==> t.current == Some(s.current.value + line) && t.next == s.next)
  {
    InitInv();
    RunsKeepInv(INIT, acts);
    var s := Exec(INIT, acts);
    if SIZE - |s.current.value| <= |line| {
      assert |Next(s, Append(line)).buffers| == |s.buffers| + 1;
    }
  }

  /** Every buffer, in use, put aside or with the writer, leaves a byte free. */
  predicate Fit(s: State) {
    && (s.current.Some? ==> |s.current.value| < SIZE) && (s.next.Some? ==> |s.next.value| < SIZE)
    && (s.spare1.Some? ==> |s.spare1.value| < SIZE) && (s.spare2.Some? ==> |s.spare2.value| < SIZE)
    && (forall b :: b in s.buffers ==> |b| < SIZE) && (forall b :: b in s.toWrite ==> |b| < SIZE)
  }

  lemma BuffersFit(acts: seq<Action>)
    ensures Fit(Exec(INIT, acts))
  {
    RunsFit(INIT, acts);
  }

  lemma {:induction false} RunsFit(s: State, acts: seq<Action>)
    requires Fit(s)
    ensures Fit(Exec(s, acts))
    decreases |acts|
  {
    if acts != [] {
      StepFits(s, acts[0]);
      RunsFit(Next(s, acts[0]), acts[1..]);
    }
  }

  lemma StepFits(s: State, a: Action)
    requires Fit(s)
    ensures Fit(Next(s, a))
  {
  }

  /** After stop() no turn begins: a turn that was waiting still exchanges, any other run of the writer does not. */
  lemma StopIsForGood(s: State, acts: seq<Action>)
    ensures var t := Exec(Next(s, Stop), acts);
            && !t.running && !Enabled(t, Enter) && (t.phase == Head ==> Enabled(t, Leave))
            && (s.phase != Waiting ==> t.phase != Waiting && t.cut == s.cut)
  {
    StoppedStays(Next(s, Stop), acts);
  }

  lemma {:induction false} StoppedStays(s: State, acts: seq<Action>)
    requires !s.running
    ensures var t := Exec(s, acts); !t.running && (s.phase != Waiting ==> t.phase != Waiting && t.cut == s.cut)
    decreases |acts|
  {
    if acts != [] {
      StoppedStays(Next(s, acts[0]), acts[1..]);
    }
  }

  // ---- the statements as written ----

  /** NullFollowed: a null buffer is used; EmptyBack: back() is called on an empty vector. */
  datatype Fault = NoFault | NullFollowed | EmptyBack

  /** A run of the code as written: its state, the exchanges made, and whether it still has a meaning. */
  datatype Written = Written(s: State, turns: nat, fault: Fault)

  const START := Written(INIT, 0, NoFault)

  /** The buffer from back() is given to the missing spare, and reset() drops it. */
  function DropBack(kept: seq<Buffer>, spare: Option<Buffer>): (seq<Buffer>, Option<Buffer>)
    requires spare.None? ==> kept != []
  {
    if spare.None? then (kept[..|kept| - 1], None) else (kept, spare)
  }

  /** reserve(2) cuts nothing. */
  function RecycleAsWritten(w: Written): Written {
    if w.s.spare1.None? && w.s.toWrite == [] then w.(fault := EmptyBack) else
    var (kept1, spare1) := DropBack(w.s.toWrite, w.s.spare1);
    if w.s.spare2.None? && kept1 == [] then w.(fault := EmptyBack) else
    var (kept2, spare2) := DropBack(kept1, w.s.spare2);
    w.(s := w.s.(spare1 := spare1, spare2 := spare2, toWrite := [], written := 0, phase := Head))
  }

  /** An exchange of a null current buffer hands the null to the writer, which follows it. */
  function NextAsWritten(w: Written, a: Action): Written {
    if w.fault != NoFault then w else
    match a
    case Append(line) =>
      if w.s.current.None? then w.(fault := NullFollowed) else w.(s := ApplyAppend(w.s, line))
    case Exchange =>
      if w.s.phase != Waiting then w
      else if w.s.current.None? then w.(fault := NullFollowed)
      else w.(s := ApplyExchange(w.s), turns := w.turns + 1)
    case Recycle =>
      if w.s.phase == Writing && w.s.written == |w.s.toWrite| then RecycleAsWritten(w) else w
    case _ => w.(s := Next(w.s, a))
  }

  function ExecAsWritten(w: Written, acts: seq<Action>): Written
    decreases |acts|
  {
    if acts == [] then w else ExecAsWritten(NextAsWritten(w, acts[0]), acts[1..])
  }

  predicate InvAsWritten(w: Written) {
    && w.turns <= 2
    && (w.s.current == None <==> w.turns == 2)
    && (w.s.spare1 == None <==> w.turns > 0)
    && (w.turns == 0 ==> w.s.spare2.Some? && w.s.phase != Writing)
    && (w.turns < 2 ==> (w.s.next.None? ==> w.s.buffers != []))
    && (w.s.phase == Writing ==> w.s.toWrite != [])
    && (w.s.phase == Writing && w.turns == 1 && w.s.spare2.None? ==> |w.s.toWrite| >= 2)
    && (w.fault != NoFault ==> w.turns == 2)
  }

  lemma StepKeepsAsWritten(w: Written, a: Action)
    requires InvAsWritten(w)
    ensures InvAsWritten(NextAsWritten(w, a))
  {
  }

  lemma {:induction false} RunsAsWritten(w: Written, acts: seq<Action>)
    requires InvAsWritten(w)
    ensures InvAsWritten(ExecAsWritten(w, acts))
    decreases |acts|
  {
    if acts != [] {
      StepKeepsAsWritten(w, acts[0]);
      RunsAsWritten(NextAsWritten(w, acts[0]), acts[1..]);
    }
  }

  /**
   Every run of the code as written, its asserts compiled out: the first spare is missing at every
   loop head but the first; the current buffer is null exactly from the second exchange on, so
   that there is never a third; and nothing goes wrong before the second.
   */
  lemma NullFromSecondExchange(acts: seq<Action>)
    ensures var w := ExecAsWritten(START, acts);
            && (w.s.phase == Head ==> (w.s.spare1 == None <==> w.turns > 0))
            && (w.s.current == None <==> w.turns >= 2) && w.turns <= 2
            && (w.fault != NoFault ==> w.turns == 2)
  {
    RunsAsWritten(START, acts);
  }

  /** Until a turn recycles, its vector and its spares stay as the exchange left them. */
  lemma {:induction false} TurnStays(w: Written, more: seq<Action>)
    requires w.s.phase == Writing && Recycle !in more
    ensures var v := ExecAsWritten(w, more);
            v.s.phase == Writing && v.s.toWrite == w.s.toWrite && v.s.spare1 == w.s.spare1 && v.s.spare2 == w.s.spare2
    decreases |more|
  {
    if more != [] {
      TurnStays(NextAsWritten(w, more[0]), more[1..]);
    }
  }

  /**
   The back() calls at the end of a turn are safe exactly when the turn is the first, or its exchange
   found a full buffer, or it found the second spare there and not needed.
   */
  lemma BackSafeIff(acts: seq<Action>, more: seq<Action>)
    requires var w := ExecAsWritten(START, acts);
             w.fault == NoFault && w.s.phase == Waiting && w.s.current.Some?
    requires Recycle !in more
    requires var v := ExecAsWritten(NextAsWritten(ExecAsWritten(START, acts), Exchange), more);
             v.fault == NoFault && v.s.written == |v.s.toWrite|
    ensures var w := ExecAsWritten(START, acts);
            var v := ExecAsWritten(NextAsWritten(w, Exchange), more);
            NextAsWritten(v, Recycle).fault == NoFault
            <==> w.turns == 0 || w.s.buffers != [] || (w.s.spare2.Some? && w.s.next.Some?)
  {
    RunsAsWritten(START, acts);
    var w := ExecAsWritten(START, acts);
    TurnStays(NextAsWritten(w, Exchange), more);
    ExchangeDecides(w, ExecAsWritten(NextAsWritten(w, Exchange), more));
  }

  lemma RecycleSafeIff(v: Written)
    requires v.fault == NoFault && v.s.phase == Writing && v.s.written == |v.s.toWrite|
    ensures NextAsWritten(v, Recycle).fault == NoFault <==> Missing(v.s) <= |v.s.toWrite|
  {
  }

  lemma ExchangeLeaves(w: Written)
    requires w.fault == NoFault && w.s.phase == Waiting && w.s.current.Some?
    ensures var x := NextAsWritten(w, Exchange).s;
            && |x.toWrite| == |w.s.buffers| + 1 && x.spare1 == None
            && (x.spare2.Some? <==> w.s.spare2.Some? && w.s.next.Some?)
  {
  }

  /** What the exchange found decides whether the turn can recycle. */
  lemma ExchangeDecides(w: Written, v: Written)
    requires InvAsWritten(w) && w.fault == NoFault && w.s.phase == Waiting && w.s.current.Some?
    requires v.fault == NoFault && v.s.phase == Writing && v.s.written == |v.s.toWrite|
    requires var x := NextAsWritten(w, Exchange).s;
             v.s.toWrite == x.toWrite && v.s.spare1 == x.spare1 && v.s.spare2 == x.spare2
    ensures NextAsWritten(v, Recycle).fault == NoFault
       <==> w.turns == 0 || w.s.buffers != [] || (w.s.spare2.Some? && w.s.next.Some?)
  {
    RecycleSafeIff(v);
    ExchangeLeaves(w);
  }

  lemma {:induction false} SplitAsWritten(w: Written, a: seq<Action>, b: seq<Action>)
    ensures ExecAsWritten(w, a + b) == ExecAsWritten(ExecAsWritten(w, a), b)
    decreases |a|
  {
    if a == [] {
      assert a + b == b;
    } else {
      assert (a + b)[1..] == a[1..] + b;
      SplitAsWritten(NextAsWritten(w, a[0]), a[1..], b);
    }
  }

  lemma OneAsWritten(w: Written, a: Action)
    ensures ExecAsWritten(w, [a]) == NextAsWritten(w, a)
  {
    assert [a][1..] == [];
  }

  lemma TwoAsWritten(w: Written, a: Action, b: Action)
    ensures ExecAsWritten(w, [a, b]) == NextAsWritten(NextAsWritten(w, a), b)
  {
    assert [a, b] == [a] + [b];
    SplitAsWritten(w, [a], [b]);
    OneAsWritten(w, a);
    OneAsWritten(NextAsWritten(w, a), b);
  }

  /** A first turn that finds one full buffer and no next buffer spends both spares. */
  lemma TurnSpendsSpares(w: Written)
    requires w.fault == NoFault && w.s.phase == Head && w.s.running && w.s.current.Some? && |w.s.buffers| == 1
    requires w.s.next.None? && w.s.spare1.Some? && w.s.spare2.Some?
    ensures var v := ExecAsWritten(w, [Enter] + ([Exchange, WriteOne] + [WriteOne, Recycle]));
            && v.fault == NoFault && v.s.phase == Head && v.s.running && v.s.current.Some? && v.s.buffers == []
            && v.s.next.Some? && v.s.spare1.None? && v.s.spare2.None?
  {
    var x := NextAsWritten(w, Enter);
    OneAsWritten(w, Enter);
    SplitAsWritten(w, [Enter], [Exchange, WriteOne] + [WriteOne, Recycle]);
    SplitAsWritten(x, [Exchange, WriteOne], [WriteOne, Recycle]);
    TwoAsWritten(x, Exchange, WriteOne);
    TwoAsWritten(ExecAsWritten(x, [Exchange, WriteOne]), WriteOne, Recycle);
  }

  /** A turn that finds no full buffer when both spares are missing calls back() in vain. */
  lemma TurnFindsEmpty(w: Written)
    requires w.fault == NoFault && w.s.phase == Head && w.s.running && w.s.current.Some? && w.s.buffers == []
    requires w.s.next.Some? && w.s.spare1.None? && w.s.spare2.None?
    ensures ExecAsWritten(w, [Enter] + ([Exchange, WriteOne] + [Recycle])).fault == EmptyBack
  {
    var x := NextAsWritten(w, Enter);
    OneAsWritten(w, Enter);
    SplitAsWritten(w, [Enter], [Exchange, WriteOne] + [Recycle]);
    SplitAsWritten(x, [Exchange, WriteOne], [Recycle]);
    TwoAsWritten(x, Exchange, WriteOne);
    OneAsWritten(ExecAsWritten(x, [Exchange, WriteOne]), Recycle);
  }

  /** So two lines that fill the front buffer before the first turn lead there. */
  lemma EmptyBackExample(line: string)
    requires |line| == SIZE - 1
    ensures ExecAsWritten(START, [Append(line), Append("x")] + ([Enter] + ([Exchange, WriteOne] + [WriteOne, Recycle]))
                                 + ([Enter] + ([Exchange, WriteOne] + [Recycle]))).fault == EmptyBack
  {
    var fill, turn := [Append(line), Append("x")], [Enter] + ([Exchange, WriteOne] + [WriteOne, Recycle]);
    TwoAsWritten(START, Append(line), Append("x"));
    var w := ExecAsWritten(START, fill);
    TurnSpendsSpares(w);
    TurnFindsEmpty(ExecAsWritten(w, turn));
    SplitAsWritten(START, fill, turn);
    SplitAsWritten(START, fill + turn, [Enter] + ([Exchange, WriteOne] + [Recycle]));
  }

  /** A turn that finds the first spare there and no full buffer uses it up. */
  lemma QuietTurn(w: Written)
    requires w.fault == NoFault && w.s.phase == Head && w.s.running && w.s.current.Some? && w.s.buffers == []
    requires w.s.spare1.Some? && w.s.spare2.Some? && w.s.next.Some?
    ensures var v := ExecAsWritten(w, [Enter, Exchange] + [WriteOne, Recycle]);
            v.fault == NoFault && v.s.phase == Head && v.s.running && v.s.current.Some? && v.s.spare1.None?
  {
    SplitAsWritten(w, [Enter, Exchange], [WriteOne, Recycle]);
    TwoAsWritten(w, Enter, Exchange);
    TwoAsWritten(ExecAsWritten(w, [Enter, Exchange]), WriteOne, Recycle);
  }

  /** The exchange after that leaves a null buffer, and the next line follows it. */
  lemma NullTurn(w: Written)
    requires w.fault == NoFault && w.s.phase == Head && w.s.running && w.s.current.Some? && w.s.spare1.None?
    ensures ExecAsWritten(w, [Enter, Exchange]).s.current == None
    ensures ExecAsWritten(w, [Enter, Exchange] + [Append("x")]).fault == NullFollowed
  {
    TwoAsWritten(w, Enter, Exchange);
    SplitAsWritten(w, [Enter, Exchange], [Append("x")]);
    OneAsWritten(ExecAsWritten(w, [Enter, Exchange]), Append("x"));
  }

  /** A quiet logger: after the second exchange the next line meets a null buffer. */
  lemma NullCurrentExample()
    ensures ExecAsWritten(START, [Enter, Exchange] + [WriteOne, Recycle] + [Enter, Exchange]).s.current == None
    ensures ExecAsWritten(START, [Enter, Exchange] + [WriteOne, Recycle] + ([Enter, Exchange] + [Append("x")])).fault == NullFollowed
  {
    var turn := [Enter, Exchange] + [WriteOne, Recycle];
    QuietTurn(START);
    NullTurn(ExecAsWritten(START, turn));
    SplitAsWritten(START, turn, [Enter, Exchange]);
    SplitAsWritten(START, turn, [Enter, Exchange] + [Append("x")]);
  }

  // ---- the class ----

  /** What appends and stops do to the rest. */
  predicate FrontOnly(s: State, t: State) {
    && t.phase == s.phase && t.toWrite == s.toWrite && t.written == s.written && t.file == s.file
    && t.spare1 == s.spare1 && t.spare2 == s.spare2 && t.cut == s.cut && s.logged <= t.logged
  }

  lemma FrontStep(s: State, t: State, line: string)
    requires FrontOnly(s, t) && t.current.Some?
    ensures FrontOnly(s, ApplyAppend(t, line)) && ApplyAppend(t, line).running == t.running
  {
  }

  class Logger {
    var current: Option<Buffer>
    var next: Option<Buffer>
    var buffers: seq<Buffer>
    var running: bool
    var phase: Phase
    var spare1: Option<Buffer>
    var spare2: Option<Buffer>
    var toWrite: seq<Buffer>
    var written: nat
    var file: string
    ghost var logged: string
    ghost var cut: string

    ghost function Abs(): State
      reads this
    {
      State(current, next, buffers, running, phase, spare1, spare2, toWrite, written, file, logged, cut)
    }

    ghost predicate Valid()
      reads this
    {
      Inv(Abs())
    }

    constructor ()
      ensures Valid() && Abs() == INIT
    {
      current, next, buffers, running := Some(""), Some(""), [], true;
      phase, spare1, spare2, toWrite, written, file, logged, cut := Head, Some(""), Some(""), [], 0, "", "", "";
      new;
      InitInv();
    }

    /** append: the lock is held throughout. */
    method AppendLine(line: string)
      requires Valid()
      modifies this
      ensures Valid() && Abs() == ApplyAppend(old(Abs()), line)
    {
      AppendKeepsInv(Abs(), line);
      if SIZE - |current.value| > |line| {
        current := Some(LogStream.Appended(SIZE, current.value, line));
      } else {
        buffers := buffers + [current.value];
        if next.Some? {
          current, next := next, None;
        } else {
          current := Some("");
        }
        current := Some(LogStream.Appended(SIZE, current.value, line));
      }
      logged := if |line| < SIZE then logged + line else logged;
    }

    /** stop. */
    method StopRunning()
      requires Valid()
      modifies this`running
      ensures Valid() && Abs() == Apply(old(Abs()), Stop)
    {
      StepKeepsInv(Abs(), Stop);
      running := false;
    }

    /** What other threads do while the writer does not hold the lock. */
    method Interfere(lines: seq<string>, stop: bool)
      requires Valid()
      modifies this
      ensures Valid() && FrontOnly(old(Abs()), Abs()) && (running <==> old(running) && !stop)
    {
      ghost var s := Abs();
      if stop {
        StopRunning();
      }
      for i := 0 to |lines|
        invariant Valid() && FrontOnly(s, Abs()) && (running <==> s.running && !stop)
      {
        FrontStep(s, Abs(), lines[i]);
        AppendLine(lines[i]);
      }
    }

    /** The locked block of threadFunc. */
    method ExchangeBuffers()
      requires Valid() && phase == Waiting
      modifies this`buffers, this`current, this`next, this`spare1, this`spare2, this`toWrite
      modifies this`phase, this`written, this`cut
      ensures Valid() && Abs() == ApplyExchange(old(Abs()))
    {
      ExchangeKeepsInv(Abs());
      buffers := buffers + [current.value];
      current, spare1 := spare1, None;
      toWrite, buffers := buffers, [];
      if next.None? {
        next, spare2 := spare2, None;
      }
      phase, written, cut := Writing, 0, logged;
    }

    method WriteNext()
      requires Valid() && phase == Writing && written < |toWrite|
      modifies this`file, this`written
      ensures Valid() && Abs() == Apply(old(Abs()), WriteOne)
    {
      WriteKeepsInv(Abs());
      file := file + toWrite[written];
      written := written + 1;
    }

    /** From the cut to two to the end of the turn. */
    method RecycleBuffers()
      requires Valid() && phase == Writing && written == |toWrite|
      modifies this`spare1, this`spare2, this`toWrite, this`written, this`phase
      ensures Valid() && EnoughToRecycle(old(Abs())) && Abs() == ApplyRecycle(old(Abs()))
    {
      RecycleKeepsInv(Abs());
      if |toWrite| > 2 {
        toWrite := toWrite[..2];
      }
      if spare1.None? {
        spare1 := Some(toWrite[|toWrite| - 1][..0]);
        toWrite := toWrite[..|toWrite| - 1];
      }
      if spare2.None? {
        spare2 := Some(toWrite[|toWrite| - 1][..0]);
        toWrite := toWrite[..|toWrite| - 1];
      }
      toWrite, written, phase := [], 0, Head;
    }

    /** The test of the loop. */
    method EnterLoop()
      requires Valid() && phase == Head && running
      modifies this`phase
      ensures Valid() && Abs() == Apply(old(Abs()), Enter)
    {
      StepKeepsInv(Abs(), Enter);
      phase := Waiting;
    }

    /**
     threadFunc: turns[i] gives the lines appended while the i-th turn waits, whether stop is called
     then, the lines appended after each of its writes, and whether stop is called during those.
     The loop is left at its head, when stop was called or where turns ends; a turn that waits when
     stop is called is still completed.  The file is then what was logged when the writer last
     took the lock, and what is missing from it is exactly what the front buffers hold.
     */
    method ThreadFunc(turns: seq<(seq<string>, bool, seq<seq<string>>, bool)>)
      requires Valid() && phase == Head
      modifies this
      ensures Valid() && phase == if running then Head else Stopped
      ensures file == cut && current.Some? && file + (Concat(buffers) + current.value) == logged
      ensures if turns != [] && old(running) then old(logged) <= cut else cut == old(cut)
      ensures !running ==> !old(running) || exists t :: t in turns && (t.1 || t.3)
    {
      var i := 0;
      while running && i < |turns|
        invariant Valid() && phase == Head && i <= |turns| && old(logged) <= logged
        invariant if i > 0 then old(running) && old(logged) <= cut else cut == old(cut) && running == old(running)
        invariant !running ==> !old(running) || exists t :: t in turns && (t.1 || t.3)
        decreases |turns| - i
      {
        var (waiting, stopWaiting, writing, stopWriting) := turns[i];
        assert turns[i] in turns;
        EnterLoop();
        Interfere(waiting, stopWaiting);
        Turn(writing, stopWriting);
        i := i + 1;
      }
      if !running {
        StepKeepsInv(Abs(), Leave);
        phase := Stopped;
      }
      NothingToWrite(Abs());
      assert toWrite[written..] == [];
      assert Unwritten(Abs()) == Concat(buffers) + current.value;
    }

    /** The rest of a turn: exchange, write everything exchanged, recycle. */
    method Turn(writing: seq<seq<string>>, stop: bool)
      requires Valid() && phase == Waiting
      modifies this
      ensures Valid() && phase == Head && file == cut == old(logged) && old(logged) <= logged
      ensures running <==> old(running) && !stop
    {
      ExchangeBuffers();
      ghost var goal := logged;
      ghost var was := running;
      while written < |toWrite|
        invariant Valid() && phase == Writing && goal <= logged && cut == goal
        invariant running <==> was && !(stop && written > 0)
        decreases |toWrite| - written
      {
        WriteNext();
        Interfere(if written <= |writing| then writing[written - 1] else [], stop);
      }
      assert toWrite[written..] == [] && file + "" == file;
      RecycleBuffers();
    }
  }
}
