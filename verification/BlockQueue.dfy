/**
 The queue with a dummy node and separate head and tail locks
 (myTinymuduo/base/blockqueue.h), at the grain of single field writes.

 Nodes live at addresses.  Each thread has a program counter; an action is one step of one
 thread, and a run is any sequence of actions.  Waiting on the condition variable is releasing
 the head lock and starting over.  The last four fields of a state are what an observer records:
 the nodes from head to tail, the values in them, and what has been pushed and popped.
 */
module BlockQueue {
  import opened Prelude

  type Thread = nat
  type Addr = nat
  type Value = int

  datatype Node = Node(data: Option<Value>, next: Option<Addr>)

  datatype Kind = TryPop | WaitPop | Empty

  datatype Counter =
    | Idle
    // push
    | Made(v: Value, node: Addr)              // the value and the new dummy are allocated
    | TailHeld(v: Value, node: Addr)
    | DataSet(v: Value, node: Addr)           // tail->data = new_data
    | NextSet(v: Value, node: Addr)           // tail->next = p
    | TailSet                                 // tail = new_tail; the lock is still held
    // try_pop, wait_and_pop and empty
    | Started(kind: Kind)
    | HeadHeld(kind: Kind)
    | InGetTail(kind: Kind)                   // get_tail holds the tail lock
    | Compared(kind: Kind, empty: bool)       // it has returned, and head was compared with it
    | Unlinking(gone: Addr)                   // old_head = move(head): head is null
    | Unlinked(gone: Addr, index: nat)        // head = move(old_head->next); the lock is still held
    | Holding(gone: Addr, index: nat)         // the lock is released; the data is still to be read

  datatype State = State(
    nodes: map<Addr, Node>,
    head: Option<Addr>,
    tail: Addr,
    headLock: Option<Thread>,
    tailLock: Option<Thread>,
    pc: map<Thread, Counter>,
    // what an observer has seen
    chain: seq<Addr>,
    values: seq<Value>,
    pushed: seq<Value>,
    popped: seq<Value>,
    answers: seq<(nat, Value)>)   // for every pop that returned: which pop it was, and its value

  const DUMMY: Addr := 0
  const INIT := State(map[DUMMY := Node(None, None)], Some(DUMMY), DUMMY, None, None, map[], [DUMMY], [], [], [], [])

  function PC(s: State, t: Thread): Counter {
    if t in s.pc then s.pc[t] else Idle
  }

  datatype Action =
    | Push(t: Thread, v: Value, node: Addr)   // allocate
    | Start(t: Thread, kind: Kind)
    | Step(t: Thread)                         // the next step of the call in progress

  predicate Enabled(s: State, a: Action) {
    match a
    case Push(t, v, node) => PC(s, t) == Idle && node !in s.nodes
    case Start(t, kind) => PC(s, t) == Idle
    case Step(t) =>
      match PC(s, t)
      case Idle => false
      case Made(_, _) => s.tailLock == None
      case Started(_) => s.headLock == None
      case HeadHeld(_) => s.tailLock == None
      case _ => true
  }

  /** The node behind a pointer; a dangling pointer reads as an empty node. */
  function NodeAt(s: State, a: Addr): Node {
    if a in s.nodes then s.nodes[a] else Node(None, None)
  }

  function Goto(s: State, t: Thread, c: Counter): State {
    s.(pc := s.pc[t := c])
  }

  /** The step of thread t at counter c. */
  function Advance(s: State, t: Thread): State {
    match PC(s, t)
    case Idle => s
    case Made(v, node) => Goto(s, t, TailHeld(v, node)).(tailLock := Some(t))
    case TailHeld(v, node) =>
      Goto(s, t, DataSet(v, node)).(nodes := s.nodes[s.tail := NodeAt(s, s.tail).(data := Some(v))])
    case DataSet(v, node) =>
      Goto(s, t, NextSet(v, node)).(nodes := s.nodes[s.tail := NodeAt(s, s.tail).(next := Some(node))])
    case NextSet(v, node) => Link(s, t, v, node)
    case TailSet => Goto(s, t, Idle).(tailLock := None)
    case Started(kind) => Goto(s, t, HeadHeld(kind)).(headLock := Some(t))
    case HeadHeld(kind) => Goto(s, t, InGetTail(kind)).(tailLock := Some(t))
    case InGetTail(kind) => Goto(s, t, Compared(kind, s.head == Some(s.tail))).(tailLock := None)
    case Compared(kind, empty) =>
      if kind == Empty || (empty && kind == TryPop) then Goto(s, t, Idle).(headLock := None)
      else if empty then Goto(s, t, Started(kind)).(headLock := None)
      else if s.head.Some? then Goto(s, t, Unlinking(s.head.value)).(head := None)
      else s
    case Unlinking(gone) => if s.values == [] || s.chain == [] then s else Unlink(s, t, gone)
    case Unlinked(gone, index) => Goto(s, t, Holding(gone, index)).(headLock := None)
    case Holding(gone, index) => if NodeAt(s, gone).data.None? then s else Return(s, t, gone, index)
  }

  function Apply(s: State, a: Action): State
    requires Enabled(s, a)
  {
    match a
    case Push(t, v, node) => Goto(s, t, Made(v, node)).(nodes := s.nodes[node := Node(None, None)])
    case Start(t, kind) => Goto(s, t, Started(kind))
    case Step(t) => Advance(s, t)
  }

  /** An action that is not possible where it stands does nothing. */
  function Next(s: State, a: Action): State {
    if Enabled(s, a) then Apply(s, a) else s
  }

  function Exec(s: State, acts: seq<Action>): State
    decreases |acts|
  {
    if acts == [] then s else Exec(Next(s, acts[0]), acts[1..])
  }

  // ---- the invariant ----

  predicate InTail(c: Counter) {
    c.TailHeld? || c.DataSet? || c.NextSet? || c.TailSet? || c.InGetTail?
  }

  predicate InHead(c: Counter) {
    c.HeadHeld? || c.InGetTail? || c.Compared? || c.Unlinking? || c.Unlinked?
  }

  /** The counters say who holds the locks. */
  ghost predicate Locks(s: State) {
    && (forall t: Thread :: InTail(PC(s, t)) <==> s.tailLock == Some(t))
    && (forall t: Thread :: InHead(PC(s, t)) <==> s.headLock == Some(t))
  }

  /** What the last node holds: a push fills it before it moves tail. */
  function TailNode(s: State): Node {
    if s.tailLock.None? then Node(None, None)
    else match PC(s, s.tailLock.value)
         case DataSet(v, _) => Node(Some(v), None)
         case NextSet(v, node) => Node(Some(v), Some(node))
         case _ => Node(None, None)
  }

  predicate HeadIsNull(s: State) {
    s.headLock.Some? && PC(s, s.headLock.value).Unlinking?
  }

  /** The nodes from head to tail, linked, holding the values. */
  ghost predicate Linked(s: State) {
    && |s.chain| == |s.values| + 1 && s.chain[|s.values|] == s.tail
    && s.head == (if HeadIsNull(s) then None else Some(s.chain[0]))
    && (forall i, j :: 0 <= i < j < |s.chain| ==> s.chain[i] != s.chain[j])
    && (forall i :: 0 <= i < |s.values| ==> NodeAt(s, s.chain[i]) == Node(Some(s.values[i]), Some(s.chain[i + 1])))
    && (forall i :: 0 <= i < |s.chain| ==> s.chain[i] in s.nodes)
    && NodeAt(s, s.tail) == TailNode(s)
    && s.popped + s.values == s.pushed
  }

  /** The node a thread has to itself: not yet linked, or already unlinked. */
  function Private(c: Counter): Option<Addr> {
    match c
    case Made(_, node) => Some(node)
    case TailHeld(_, node) => Some(node)
    case DataSet(_, node) => Some(node)
    case NextSet(_, node) => Some(node)
    case Unlinked(gone, _) => Some(gone)
    case Holding(gone, _) => Some(gone)
    case _ => None
  }

  ghost predicate Apart(s: State) {
    && (forall t: Thread :: Private(PC(s, t)).Some? ==>
          Private(PC(s, t)).value in s.nodes && Private(PC(s, t)).value !in s.chain)
    && (forall t: Thread, u: Thread :: t != u && Private(PC(s, t)).Some? ==> Private(PC(s, t)) != Private(PC(s, u)))
  }

  /** Which pop a thread is completing. */
  function Popping(c: Counter): Option<nat> {
    match c
    case Unlinked(_, index) => Some(index)
    case Holding(_, index) => Some(index)
    case _ => None
  }

  /** What a thread knows at its place in the code. */
  predicate KnowsAt(s: State, c: Counter) {
    match c
    case Made(_, node) => NodeAt(s, node) == Node(None, None)
    case TailHeld(_, node) => NodeAt(s, node) == Node(None, None)
    case DataSet(_, node) => NodeAt(s, node) == Node(None, None)
    case NextSet(_, node) => NodeAt(s, node) == Node(None, None)
    case Compared(_, empty) => !empty ==> s.values != []
    case Unlinking(gone) => s.values != [] && s.chain != [] && s.chain[0] == gone
    case Unlinked(gone, index) => index < |s.popped| && NodeAt(s, gone).data == Some(s.popped[index])
    case Holding(gone, index) => index < |s.popped| && NodeAt(s, gone).data == Some(s.popped[index])
    case _ => true
  }

  ghost predicate Knows(s: State) {
    forall t: Thread :: KnowsAt(s, PC(s, t))
  }

  /** Every pop is completed by one thread and returned once. */
  ghost predicate Answered(s: State) {
    && (forall i :: 0 <= i < |s.answers| ==> s.answers[i].0 < |s.popped| && s.answers[i].1 == s.popped[s.answers[i].0])
    && (forall i, j :: 0 <= i < j < |s.answers| ==> s.answers[i].0 != s.answers[j].0)
    && (forall t: Thread, i: nat :: i < |s.answers| ==> Popping(PC(s, t)) != Some(s.answers[i].0))
    && (forall t: Thread, u: Thread :: t != u && Popping(PC(s, t)).Some? ==> Popping(PC(s, t)) != Popping(PC(s, u)))
  }

  ghost predicate Inv(s: State) {
    Locks(s) && Linked(s) && Apart(s) && Knows(s) && Answered(s)
  }

  // ---- what keeps it, part by part ----

  predicate Filling(c: Counter) {
    c.DataSet? || c.NextSet?
  }

  function LockAfter(held: Option<Thread>, t: Thread, was: bool, now: bool): Option<Thread> {
    if now then Some(t) else if was then None else held
  }

  predicate Moved(s: State, u: State, t: Thread, c: Counter) {
    u.pc == s.pc[t := c]
  }

  lemma LocksAfter(s: State, u: State, t: Thread, c: Counter)
    requires Locks(s) && Moved(s, u, t, c)
    requires u.headLock == LockAfter(s.headLock, t, InHead(PC(s, t)), InHead(c))
    requires u.tailLock == LockAfter(s.tailLock, t, InTail(PC(s, t)), InTail(c))
    requires InHead(c) && !InHead(PC(s, t)) ==> s.headLock == None
    requires InTail(c) && !InTail(PC(s, t)) ==> s.tailLock == None
    ensures Locks(u)
  {
    assert forall x: Thread :: PC(u, x) == if x == t then c else PC(s, x);
  }

  lemma ApartAfter(s: State, u: State, t: Thread, c: Counter)
    requires Apart(s) && Moved(s, u, t, c)
    requires Private(c) == None || Private(c) == Private(PC(s, t)) || Private(c).value !in s.nodes
             || forall x: Thread :: Private(PC(s, x)) != Private(c)
    requires Private(c).Some? ==> Private(c).value in u.nodes && Private(c).value !in u.chain
    requires forall a :: a in s.nodes && a !in s.chain && Private(PC(s, t)) != Some(a) ==> a in u.nodes && a !in u.chain
    ensures Apart(u)
  {
    assert forall x: Thread :: PC(u, x) == if x == t then c else PC(s, x);
  }

  lemma AnsweredAfter(s: State, u: State, t: Thread, c: Counter)
    requires Answered(s) && Moved(s, u, t, c) && s.popped <= u.popped
    requires || (Popping(c) == Popping(PC(s, t)) && u.answers == s.answers)
             || (Popping(c) == Some(|s.popped|) && |u.popped| > |s.popped| && u.answers == s.answers
                 && forall x: Thread :: Popping(PC(s, x)).Some? ==> Popping(PC(s, x)).value < |s.popped|)
             || (Popping(c) == None && Popping(PC(s, t)).Some? && Popping(PC(s, t)).value < |s.popped|
                 && u.answers == s.answers + [(Popping(PC(s, t)).value, s.popped[Popping(PC(s, t)).value])])
    ensures Answered(u)
  {
    assert forall x: Thread :: PC(u, x) == if x == t then c else PC(s, x);
    assert forall i :: 0 <= i < |s.answers| ==> u.answers[i] == s.answers[i];
  }

  /** Other threads keep what they know when the nodes they know of and the pops stay. */
  lemma KnowsAfter(s: State, u: State, t: Thread, c: Counter)
    requires Knows(s) && Moved(s, u, t, c) && KnowsAt(u, c) && s.popped <= u.popped
    requires forall x: Thread :: x != t && Private(PC(s, x)).Some? ==>
               NodeAt(u, Private(PC(s, x)).value) == NodeAt(s, Private(PC(s, x)).value)
    requires || ((s.values != [] ==> u.values != []) && (s.chain != [] ==> u.chain != [] && u.chain[0] == s.chain[0]))
             || forall x: Thread :: x != t ==> !InHead(PC(s, x))
    ensures Knows(u)
  {
    forall x: Thread ensures KnowsAt(u, PC(u, x)) {
      if x != t {
        assert PC(u, x) == PC(s, x) && KnowsAt(s, PC(s, x));
      }
    }
  }

  lemma ControlKeepsLinked(s: State, u: State, t: Thread, c: Counter)
    requires Linked(s) && Locks(s) && Locks(u) && Moved(s, u, t, c)
    requires u == s.(pc := u.pc, headLock := u.headLock, tailLock := u.tailLock)
    requires !Filling(c) && !Filling(PC(s, t)) && !c.Unlinking? && !PC(s, t).Unlinking?
    ensures Linked(u)
  {
    assert forall x: Thread :: PC(u, x) == if x == t then c else PC(s, x);
    assert TailNode(u) == TailNode(s) && HeadIsNull(u) == HeadIsNull(s);
    assert forall a :: NodeAt(u, a) == NodeAt(s, a);
  }

  // ---- steps that only move a counter and a lock ----

  lemma ControlKeepsInv(s: State, u: State, t: Thread, c: Counter)
    requires Inv(s) && Moved(s, u, t, c) && u == s.(pc := u.pc, headLock := u.headLock, tailLock := u.tailLock)
    requires u.headLock == LockAfter(s.headLock, t, InHead(PC(s, t)), InHead(c))
    requires u.tailLock == LockAfter(s.tailLock, t, InTail(PC(s, t)), InTail(c))
    requires InHead(c) && !InHead(PC(s, t)) ==> s.headLock == None
    requires InTail(c) && !InTail(PC(s, t)) ==> s.tailLock == None
    requires Private(c) == Private(PC(s, t)) && Popping(c) == Popping(PC(s, t)) && KnowsAt(s, c)
    requires !Filling(c) && !Filling(PC(s, t)) && !c.Unlinking? && !PC(s, t).Unlinking?
    ensures Inv(u)
  {
    LocksAfter(s, u, t, c);
    ControlKeepsLinked(s, u, t, c);
    ApartAfter(s, u, t, c);
    KnowsAfter(s, u, t, c);
    AnsweredAfter(s, u, t, c);
  }

  // ---- the steps that write ----

  lemma AllocateKeepsInv(s: State, t: Thread, v: Value, node: Addr)
    requires Inv(s) && PC(s, t) == Idle && node !in s.nodes
    ensures Inv(Goto(s, t, Made(v, node)).(nodes := s.nodes[node := Node(None, None)]))
  {
    var c := Made(v, node);
    var u := Goto(s, t, c).(nodes := s.nodes[node := Node(None, None)]);
    LocksAfter(s, u, t, c);
    assert forall a :: a in s.nodes ==> NodeAt(u, a) == NodeAt(s, a);
    AllocateKeepsLinked(s, u, t, c);
    ApartAfter(s, u, t, c);
    KnowsAfter(s, u, t, c);
    AnsweredAfter(s, u, t, c);
  }

  lemma AllocateKeepsLinked(s: State, u: State, t: Thread, c: Counter)
    requires Linked(s) && Locks(s) && Moved(s, u, t, c) && PC(s, t) == Idle && c.Made?
    requires u == s.(pc := u.pc, nodes := u.nodes) && s.nodes.Keys <= u.nodes.Keys
    requires forall a :: a in s.nodes ==> NodeAt(u, a) == NodeAt(s, a)
    ensures Linked(u)
  {
    assert forall x: Thread :: PC(u, x) == if x == t then c else PC(s, x);
    assert TailNode(u) == TailNode(s) && HeadIsNull(u) == HeadIsNull(s);
  }

  /** A push writes a field of the last node, which nobody else has to itself or knows anything of. */
  lemma FillKeepsInv(s: State, t: Thread, c: Counter, filled: Node)
    requires Inv(s) && InTail(PC(s, t)) && !InHead(PC(s, t)) && Filling(c) && Private(c) == Private(PC(s, t))
    requires KnowsAt(s, c) && Popping(PC(s, t)) == None
    requires filled == match c case DataSet(v, _) => Node(Some(v), None) case NextSet(v, n) => Node(Some(v), Some(n))
    ensures Inv(Goto(s, t, c).(nodes := s.nodes[s.tail := filled]))
  {
    var u := Goto(s, t, c).(nodes := s.nodes[s.tail := filled]);
    LocksAfter(s, u, t, c);
    FillKeepsLinked(s, u, t, c, filled);
    ApartAfter(s, u, t, c);
    KnowsAfter(s, u, t, c);
    AnsweredAfter(s, u, t, c);
  }

  lemma FillKeepsLinked(s: State, u: State, t: Thread, c: Counter, filled: Node)
    requires Linked(s) && Locks(s) && InTail(PC(s, t)) && !InHead(PC(s, t)) && Filling(c)
    requires filled == match c case DataSet(v, _) => Node(Some(v), None) case NextSet(v, n) => Node(Some(v), Some(n))
    requires u == Goto(s, t, c).(nodes := s.nodes[s.tail := filled])
    ensures Linked(u)
    ensures s.tail in s.chain && forall a :: a != s.tail ==> NodeAt(u, a) == NodeAt(s, a)
  {
    assert forall x: Thread :: PC(u, x) == if x == t then c else PC(s, x);
    assert s.tailLock == Some(t) && TailNode(u) == filled && HeadIsNull(u) == HeadIsNull(s);
    assert forall i :: 0 <= i < |s.values| ==> s.chain[i] != s.chain[|s.values|];
  }

  function Link(s: State, t: Thread, v: Value, node: Addr): State {
    Goto(s, t, TailSet).(tail := node, chain := s.chain + [node], values := s.values + [v], pushed := s.pushed + [v])
  }

  lemma LinkKeepsInv(s: State, t: Thread, v: Value, node: Addr)
    requires Inv(s) && PC(s, t) == NextSet(v, node)
    ensures Inv(Link(s, t, v, node))
  {
    var u := Link(s, t, v, node);
    assert Private(PC(s, t)) == Some(node) && KnowsAt(s, PC(s, t));
    LocksAfter(s, u, t, TailSet);
    LinkKeepsLinked(s, t, v, node);
    ApartAfter(s, u, t, TailSet);
    KnowsAfter(s, u, t, TailSet);
    AnsweredAfter(s, u, t, TailSet);
  }

  lemma LinkKeepsLinked(s: State, t: Thread, v: Value, node: Addr)
    requires Linked(s) && Locks(s) && PC(s, t) == NextSet(v, node)
    requires node in s.nodes && node !in s.chain && NodeAt(s, node) == Node(None, None)
    ensures Linked(Link(s, t, v, node))
  {
    var u := Link(s, t, v, node);
    assert forall x: Thread :: PC(u, x) == if x == t then TailSet else PC(s, x);
    assert s.tailLock == Some(t) && TailNode(u) == Node(None, None) && HeadIsNull(u) == HeadIsNull(s);
    assert forall i :: 0 <= i < |s.chain| ==> u.chain[i] == s.chain[i] && u.chain[i] != node;
    assert NodeAt(s, s.tail) == Node(Some(v), Some(node));
    assert s.popped + (s.values + [v]) == s.popped + s.values + [v];
  }

  lemma NullHeadKeepsInv(s: State, t: Thread, kind: Kind)
    requires Inv(s) && PC(s, t) == Compared(kind, false)
    ensures s.head == Some(s.chain[0]) && Inv(Goto(s, t, Unlinking(s.chain[0])).(head := None))
  {
    assert KnowsAt(s, PC(s, t)) && s.headLock == Some(t);
    var c := Unlinking(s.chain[0]);
    var u := Goto(s, t, c).(head := None);
    LocksAfter(s, u, t, c);
    assert TailNode(u) == TailNode(s) && HeadIsNull(u);
    assert Linked(u) by {
      assert forall a :: NodeAt(u, a) == NodeAt(s, a);
    }
    ApartAfter(s, u, t, c);
    KnowsAfter(s, u, t, c);
    AnsweredAfter(s, u, t, c);
  }

  function Unlink(s: State, t: Thread, gone: Addr): State
    requires s.values != [] && s.chain != []
  {
    Goto(s, t, Unlinked(gone, |s.popped|))
      .(head := NodeAt(s, gone).next, nodes := s.nodes[gone := NodeAt(s, gone).(next := None)],
        chain := s.chain[1..], values := s.values[1..], popped := s.popped + [s.values[0]])
  }

  lemma UnlinkKeepsLinked(s: State, t: Thread, gone: Addr)
    requires Linked(s) && Locks(s) && PC(s, t) == Unlinking(gone) && KnowsAt(s, PC(s, t))
    ensures Linked(Unlink(s, t, gone)) && NodeAt(s, gone).data == Some(s.values[0])
    ensures gone in s.chain && gone !in s.chain[1..] && gone in s.nodes
  {
    var u := Unlink(s, t, gone);
    assert s.headLock == Some(t);
    assert forall x: Thread :: PC(u, x) == if x == t then Unlinked(gone, |s.popped|) else PC(s, x);
    assert NodeAt(s, s.chain[0]) == Node(Some(s.values[0]), Some(s.chain[1]));
    assert forall a :: a != gone ==> NodeAt(u, a) == NodeAt(s, a);
    assert TailNode(u) == TailNode(s) && !HeadIsNull(u);
    assert forall i :: 0 <= i < |u.chain| ==> u.chain[i] == s.chain[i + 1] && u.chain[i] != gone;
    assert s.popped + [s.values[0]] + s.values[1..] == s.popped + s.values;
  }

  lemma UnlinkKeepsInv(s: State, t: Thread, gone: Addr)
    requires Inv(s) && PC(s, t) == Unlinking(gone)
    ensures s.values != [] && s.chain != [] && Inv(Unlink(s, t, gone))
  {
    assert KnowsAt(s, PC(s, t)) && s.headLock == Some(t);
    var c, u := Unlinked(gone, |s.popped|), Unlink(s, t, gone);
    LocksAfter(s, u, t, c);
    UnlinkKeepsLinked(s, t, gone);
    assert forall a :: a in u.chain ==> a in s.chain;
    assert forall a :: a != gone ==> NodeAt(u, a) == NodeAt(s, a);
    ApartAfter(s, u, t, c);
    KnowsAfter(s, u, t, c);
    forall x: Thread ensures Popping(PC(s, x)).Some? ==> Popping(PC(s, x)).value < |s.popped| {
      assert KnowsAt(s, PC(s, x));
    }
    AnsweredAfter(s, u, t, c);
  }

  function Return(s: State, t: Thread, gone: Addr, index: nat): State
    requires NodeAt(s, gone).data.Some?
  {
    Goto(s, t, Idle).(nodes := s.nodes - {gone}, answers := s.answers + [(index, NodeAt(s, gone).data.value)])
  }

  lemma ReturnKeepsLinked(s: State, u: State, t: Thread, gone: Addr)
    requires Linked(s) && Locks(s) && Moved(s, u, t, Idle) && PC(s, t).Holding? && gone !in s.chain
    requires u == s.(pc := u.pc, nodes := s.nodes - {gone}, answers := u.answers)
    ensures Linked(u)
  {
    assert forall x: Thread :: PC(u, x) == if x == t then Idle else PC(s, x);
    assert forall a :: a != gone ==> NodeAt(u, a) == NodeAt(s, a);
    assert TailNode(u) == TailNode(s) && HeadIsNull(u) == HeadIsNull(s);
    assert forall i :: 0 <= i < |s.chain| ==> s.chain[i] != gone;
  }

  lemma ReturnKeepsInv(s: State, t: Thread, gone: Addr, index: nat)
    requires Inv(s) && PC(s, t) == Holding(gone, index)
    ensures NodeAt(s, gone).data.Some? && Inv(Return(s, t, gone, index))
  {
    assert KnowsAt(s, PC(s, t)) && Private(PC(s, t)) == Some(gone) && Popping(PC(s, t)) == Some(index);
    var u := Return(s, t, gone, index);
    LocksAfter(s, u, t, Idle);
    ReturnKeepsLinked(s, u, t, gone);
    ApartAfter(s, u, t, Idle);
    forall x: Thread | x != t && Private(PC(s, x)).Some?
      ensures NodeAt(u, Private(PC(s, x)).value) == NodeAt(s, Private(PC(s, x)).value)
    {
      assert Private(PC(s, x)) != Private(PC(s, t));
    }
    KnowsAfter(s, u, t, Idle);
    AnsweredAfter(s, u, t, Idle);
  }

  lemma PushSideKeepsInv(s: State, t: Thread)
    requires Inv(s) && (PC(s, t).TailHeld? || PC(s, t).DataSet? || PC(s, t).NextSet?)
    ensures Inv(Advance(s, t))
  {
    assert KnowsAt(s, PC(s, t)) && s.tailLock == Some(t);
    match PC(s, t)
    case TailHeld(v, node) => FillKeepsInv(s, t, DataSet(v, node), Node(Some(v), None));
    case DataSet(v, node) => FillKeepsInv(s, t, NextSet(v, node), Node(Some(v), Some(node)));
    case NextSet(v, node) => LinkKeepsInv(s, t, v, node);
  }

  lemma CompareKeepsInv(s: State, t: Thread)
    requires Inv(s) && PC(s, t).InGetTail?
    ensures Inv(Advance(s, t))
  {
    assert s.headLock == Some(t);
    HeadMeetsTailIff(s);
    ControlKeepsInv(s, Advance(s, t), t, PC(Advance(s, t), t));
  }

  lemma ComparedKeepsInv(s: State, t: Thread, kind: Kind, empty: bool)
    requires Inv(s) && PC(s, t) == Compared(kind, empty)
    ensures Inv(Advance(s, t))
  {
    if kind == Empty || empty {
      ControlKeepsInv(s, Advance(s, t), t, PC(Advance(s, t), t));
    } else {
      NullHeadKeepsInv(s, t, kind);
    }
  }

  /** Taking and releasing a lock. */
  lemma LockStepKeepsInv(s: State, t: Thread)
    requires Inv(s) && Enabled(s, Step(t))
    requires var c := PC(s, t); c.Made? || c.TailSet? || c.Started? || c.HeadHeld? || c.Unlinked?
    ensures Inv(Advance(s, t))
  {
    assert KnowsAt(s, PC(s, t));
    ControlKeepsInv(s, Advance(s, t), t, PC(Advance(s, t), t));
  }

  lemma AdvanceKeepsInv(s: State, t: Thread)
    requires Inv(s) && Enabled(s, Step(t))
    ensures Inv(Advance(s, t))
  {
    match PC(s, t)
    case Compared(kind, empty) => ComparedKeepsInv(s, t, kind, empty);
    case Unlinking(gone) => UnlinkKeepsInv(s, t, gone);
    case Holding(gone, index) => ReturnKeepsInv(s, t, gone, index);
    case InGetTail(_) => CompareKeepsInv(s, t);
    case TailHeld(_, _) => PushSideKeepsInv(s, t);
    case DataSet(_, _) => PushSideKeepsInv(s, t);
    case NextSet(_, _) => PushSideKeepsInv(s, t);
    case _ => LockStepKeepsInv(s, t);
  }

  /** head == tail, when head is not being moved, says that the queue is empty. */
  lemma HeadMeetsTailIff(s: State)
    requires Linked(s)
    ensures !HeadIsNull(s) ==> (s.head == Some(s.tail) <==> s.values == [])
  {
    if s.values != [] {
      assert s.chain[0] != s.chain[|s.values|];
    }
  }

  lemma StepKeepsInv(s: State, a: Action)
    requires Inv(s) && Enabled(s, a)
    ensures Inv(Apply(s, a))
  {
    match a
    case Push(t, v, node) => AllocateKeepsInv(s, t, v, node);
    case Start(t, kind) => ControlKeepsInv(s, Apply(s, a), t, Started(kind));
    case Step(t) => AdvanceKeepsInv(s, t);
  }

  /** What every step keeps, every run keeps. */
  lemma {:induction false} RunInduction(q: State -> bool, s: State, acts: seq<Action>)
    requires q(s)
    requires forall x, a :: q(x) && Enabled(x, a) ==> q(Apply(x, a))
    ensures q(Exec(s, acts))
    decreases |acts|
  {
    if acts != [] {
      RunInduction(q, Next(s, acts[0]), acts[1..]);
    }
  }

  lemma RunsKeepInv(acts: seq<Action>)
    ensures Inv(Exec(INIT, acts))
  {
    assert Inv(INIT);
    forall x, a | Inv(x) && Enabled(x, a) ensures Inv(Apply(x, a)) {
      StepKeepsInv(x, a);
    }
    RunInduction(x => Inv(x), INIT, acts);
  }

  // ---- nothing popped is dropped ----

  predicate Returned(s: State, i: nat) {
    exists j :: 0 <= j < |s.answers| && s.answers[j].0 == i
  }

  ghost predicate InProgress(s: State, i: nat) {
    exists t: Thread :: Popping(PC(s, t)) == Some(i)
  }

  /** Every pop has been returned or is about to be, by the thread that made it. */
  ghost predicate Covered(s: State) {
    forall i: nat :: i < |s.popped| ==> Returned(s, i) || InProgress(s, i)
  }

  lemma CoveredAfter(s: State, u: State, t: Thread, c: Counter)
    requires Covered(s) && Moved(s, u, t, c) && s.popped <= u.popped && s.answers <= u.answers
    requires Popping(PC(s, t)).Some? && Popping(c) != Popping(PC(s, t)) ==> Returned(u, Popping(PC(s, t)).value)
    requires forall i: nat :: |s.popped| <= i < |u.popped| ==> Popping(c) == Some(i)
    ensures Covered(u)
  {
    assert forall x: Thread :: PC(u, x) == if x == t then c else PC(s, x);
    forall i: nat | i < |u.popped| ensures Returned(u, i) || InProgress(u, i) {
      if i >= |s.popped| {
        assert Popping(PC(u, t)) == Some(i);
      } else if Returned(s, i) {
        var j :| 0 <= j < |s.answers| && s.answers[j].0 == i;
        assert u.answers[j].0 == i;
      } else {
        var x: Thread :| Popping(PC(s, x)) == Some(i);
        assert x != t ==> Popping(PC(u, x)) == Some(i);
        assert Popping(PC(u, t)) == Popping(c);
      }
    }
  }

  lemma StepCovers(s: State, a: Action)
    requires Covered(s) && Enabled(s, a)
    ensures Covered(Apply(s, a))
  {
    var u := Apply(s, a);
    if a.Step? && PC(s, a.t).Holding? && u != s {
      assert u.answers[|s.answers|].0 == PC(s, a.t).index;
    }
    if u != s {
      CoveredAfter(s, u, a.t, PC(u, a.t));
    }
  }

  lemma RunsCover(acts: seq<Action>)
    ensures Covered(Exec(INIT, acts))
  {
    forall x, a | Covered(x) && Enabled(x, a) ensures Covered(Apply(x, a)) {
      StepCovers(x, a);
    }
    RunInduction(x => Covered(x), INIT, acts);
  }

  // ---- the theorems ----

  /**
   A FIFO, whatever the interleaving: what has been popped and what is in the queue make up what
   has been pushed, in order; each answer is the value of the pop it completes, no pop is
   answered twice, and none is dropped: either it has been answered or a thread, and only one, is
   about to answer it.
   */
  lemma PopsInPushOrderOnce(acts: seq<Action>)
    ensures var s := Exec(INIT, acts);
            && s.popped + s.values == s.pushed
            && (forall i :: 0 <= i < |s.answers| ==> s.answers[i].0 < |s.popped| && s.answers[i].1 == s.pushed[s.answers[i].0])
            && (forall i, j :: 0 <= i < j < |s.answers| ==> s.answers[i].0 != s.answers[j].0)
            && (forall i: nat :: i < |s.popped| ==> Returned(s, i) != InProgress(s, i))
            && (forall t: Thread, u: Thread :: t != u && Popping(PC(s, t)).Some? ==> Popping(PC(s, t)) != Popping(PC(s, u)))
  {
    RunsKeepInv(acts);
    RunsCover(acts);
    var s := Exec(INIT, acts);
    assert forall i :: 0 <= i < |s.popped| ==> s.pushed[i] == s.popped[i];
  }

  // ---- what was pushed, told from the calls alone ----

  /** The calls of push that thread t makes, in its order. */
  function Calls(acts: seq<Action>, t: Thread): seq<Value> {
    if acts == [] then [] else
    var front, last := acts[..|acts| - 1], acts[|acts| - 1];
    Calls(front, t) + Called(Exec(INIT, front), last, t)
  }

  function Called(s: State, a: Action, t: Thread): seq<Value> {
    if a.Push? && a.t == t && Enabled(s, a) then [a.v] else []
  }

  /** Who put which value into the queue, in the order of the queue. */
  function Entries(acts: seq<Action>): seq<(Thread, Value)> {
    if acts == [] then [] else
    var front, last := acts[..|acts| - 1], acts[|acts| - 1];
    Entries(front) + Entered(Exec(INIT, front), last)
  }

  function Entered(s: State, a: Action): seq<(Thread, Value)> {
    var u := Next(s, a);
    if |u.pushed| > |s.pushed| then [(a.t, u.pushed[|s.pushed|])] else []
  }

  function Values(es: seq<(Thread, Value)>): seq<Value> {
    seq(|es|, i requires 0 <= i < |es| => es[i].1)
  }

  function By(es: seq<(Thread, Value)>, t: Thread): seq<Value> {
    if es == [] then [] else By(es[..|es| - 1], t) + if es[|es| - 1].0 == t then [es[|es| - 1].1] else []
  }

  /** The value of a push that has not put it into the queue yet. */
  function InHand(c: Counter): seq<Value> {
    match c
    case Made(v, _) => [v]
    case TailHeld(v, _) => [v]
    case DataSet(v, _) => [v]
    case NextSet(v, _) => [v]
    case _ => []
  }

  lemma StepPushes(s: State, a: Action)
    ensures |Entered(s, a)| <= 1 && Next(s, a).pushed == s.pushed + Values(Entered(s, a))
  {
  }

  lemma ByOne(e: seq<(Thread, Value)>, t: Thread)
    requires |e| <= 1
    ensures By(e, t) == if e != [] && e[0].0 == t then [e[0].1] else []
  {
    assert By([], t) == [] && (e != [] ==> e[..0] == []);
  }

  lemma OwnStepEnters(s: State, a: Action)
    ensures |Entered(s, a)| <= 1
    ensures InHand(PC(s, a.t)) + Called(s, a, a.t) == Values(Entered(s, a)) + InHand(PC(Next(s, a), a.t))
  {
  }

  lemma StepEnters(s: State, a: Action, t: Thread)
    ensures |Entered(s, a)| <= 1
    ensures InHand(PC(s, t)) + Called(s, a, t) == By(Entered(s, a), t) + InHand(PC(Next(s, a), t))
  {
    OwnStepEnters(s, a);
    ByOne(Entered(s, a), t);
    if a.t != t {
      OthersLeaveCounter(s, a, t);
    }
  }

  lemma ByPush(es: seq<(Thread, Value)>, e: seq<(Thread, Value)>, t: Thread)
    requires |e| <= 1
    ensures By(es + e, t) == By(es, t) + By(e, t)
  {
    assert By([], t) == [];
    if e == [] {
      assert es + e == es;
    } else {
      assert (es + e)[..|es|] == es && e[..0] == [];
    }
  }

  lemma {:induction false} PushedIsEntries(acts: seq<Action>)
    ensures Exec(INIT, acts).pushed == Values(Entries(acts))
    decreases |acts|
  {
    if acts != [] {
      PushedIsEntries(acts[..|acts| - 1]);
      ExecLast(acts);
      StepPushes(Exec(INIT, acts[..|acts| - 1]), acts[|acts| - 1]);
    }
  }

  lemma {:induction false} CallsEnter(acts: seq<Action>, t: Thread)
    ensures Calls(acts, t) == By(Entries(acts), t) + InHand(PC(Exec(INIT, acts), t))
    decreases |acts|
  {
    if acts != [] {
      var front, last := acts[..|acts| - 1], acts[|acts| - 1];
      var s := Exec(INIT, front);
      CallsEnter(front, t);
      ExecLast(acts);
      StepEnters(s, last, t);
      ByPush(Entries(front), Entered(s, last), t);
      Swap(Calls(front, t), By(Entries(front), t), InHand(PC(s, t)), Called(s, last, t), By(Entered(s, last), t), InHand(PC(Next(s, last), t)));
    }
  }

  lemma Swap(calls: seq<Value>, queue: seq<Value>, hand: seq<Value>, called: seq<Value>, entered: seq<Value>, left: seq<Value>)
    requires calls == queue + hand && hand + called == entered + left
    ensures calls + called == (queue + entered) + left
  {
    assert queue + hand + called == queue + (hand + called);
    assert queue + (entered + left) == queue + entered + left;
  }

  /**
   Whatever the interleaving, the queue receives the value of every push exactly once and nothing
   else, those of one thread in the order of its calls; the last may still be in its hand.
   */
  lemma EveryPushEntersOnce(acts: seq<Action>, t: Thread)
    ensures Exec(INIT, acts).pushed == Values(Entries(acts))
    ensures Calls(acts, t) == By(Entries(acts), t) + InHand(PC(Exec(INIT, acts), t))
  {
    PushedIsEntries(acts);
    CallsEnter(acts, t);
  }

  // ---- how a call ends ----

  /** What thread t is calling: the kind of its latest call, if it is no push. */
  function Asked(acts: seq<Action>, t: Thread): Option<Kind> {
    if acts == [] then None else
    var front, last := acts[..|acts| - 1], acts[|acts| - 1];
    if last.t == t && Enabled(Exec(INIT, front), last) && last.Push? then None
    else if last.t == t && Enabled(Exec(INIT, front), last) && last.Start? then Some(last.kind)
    else Asked(front, t)
  }

  function KindAt(c: Counter): Option<Kind> {
    match c
    case Started(kind) => Some(kind)
    case HeadHeld(kind) => Some(kind)
    case InGetTail(kind) => Some(kind)
    case Compared(kind, _) => Some(kind)
    case _ => None
  }

  /** At its place in the code, a call is the one that was made; only pops unlink. */
  predicate Honest(c: Counter, asked: Option<Kind>) {
    && (KindAt(c).Some? ==> KindAt(c) == asked)
    && (c.Unlinking? || c.Unlinked? || c.Holding? ==> asked in {Some(TryPop), Some(WaitPop)})
    && (c.Made? || c.TailHeld? || c.DataSet? || c.NextSet? || c.TailSet? ==> asked == None)
  }

  lemma {:induction false} CallsAreHonest(acts: seq<Action>, t: Thread)
    ensures Honest(PC(Exec(INIT, acts), t), Asked(acts, t))
    decreases |acts|
  {
    if acts != [] {
      var front, last := acts[..|acts| - 1], acts[|acts| - 1];
      CallsAreHonest(front, t);
      ExecLast(acts);
      if last.t != t {
        OthersLeaveCounter(Exec(INIT, front), last, t);
      }
    }
  }

  /**
   How the calls end: empty after its comparison, try_pop without a value only after one that found
   the queue empty, and wait_and_pop only with a value; a pop with a value is answered by that step.
   */
  lemma CallsEnd(acts: seq<Action>, t: Thread)
    requires PC(Exec(INIT, acts), t) != Idle && PC(Next(Exec(INIT, acts), Step(t)), t) == Idle
    ensures var s, u := Exec(INIT, acts), Next(Exec(INIT, acts), Step(t));
            var c := PC(s, t);
            match Asked(acts, t)
            case None => c == TailSet && u.answers == s.answers
            case Some(Empty) => c.Compared? && u.answers == s.answers
            case Some(kind) =>
              || (kind == TryPop && c == Compared(kind, true) && u.answers == s.answers)
              || (c.Holding? && c.index < |s.pushed| && u.answers == s.answers + [(c.index, s.pushed[c.index])])
  {
    CallsAreHonest(acts, t);
    RunsKeepInv(acts);
    var s := Exec(INIT, acts);
    assert KnowsAt(s, PC(s, t));
  }

  /**
   Whenever head is not the tail, the node it points to has a value and a successor, although
   pushes may be half done; and a thread that found the queue non-empty under the head lock may
   rely on that until it acts.
   */
  lemma HeadHasSuccessor(acts: seq<Action>, t: Thread)
    ensures var s := Exec(INIT, acts);
            && (s.head.Some? && s.head.value != s.tail ==>
                  NodeAt(s, s.head.value).data.Some? && NodeAt(s, s.head.value).next.Some?)
            && (forall kind :: PC(s, t) == Compared(kind, false) ==> s.head.Some? && s.head.value != s.tail)
            && (PC(s, t).Unlinking? ==> PC(s, t).gone != s.tail && NodeAt(s, PC(s, t).gone).next.Some?)
  {
    RunsKeepInv(acts);
    var s := Exec(INIT, acts);
    HeadMeetsTailIff(s);
    assert KnowsAt(s, PC(s, t));
    if s.values != [] {
      assert NodeAt(s, s.chain[0]) == Node(Some(s.values[0]), Some(s.chain[1])) && s.chain[0] != s.chain[|s.values|];
    }
  }

  lemma {:induction false} ExecSplit(s: State, a: seq<Action>, b: seq<Action>)
    ensures Exec(s, a + b) == Exec(Exec(s, a), b)
    decreases |a|
  {
    if a == [] {
      assert a + b == b;
    } else {
      assert (a + b)[1..] == a[1..] + b;
      ExecSplit(Next(s, a[0]), a[1..], b);
    }
  }

  lemma ExecLast(acts: seq<Action>)
    requires acts != []
    ensures Exec(INIT, acts) == Next(Exec(INIT, acts[..|acts| - 1]), acts[|acts| - 1])
  {
    var front, last := acts[..|acts| - 1], acts[|acts| - 1];
    assert acts == front + [last];
    ExecSplit(INIT, front, [last]);
    assert [last][1..] == [];
  }

  lemma OthersLeaveCounter(s: State, a: Action, t: Thread)
    requires a.t != t
    ensures PC(Next(s, a), t) == PC(s, t)
  {
  }

  /**
   The answer of empty, try_pop and wait_and_pop was true at an instant inside the call: the
   comparison was made by a step of the thread itself, i actions into the run, and from then
   on the thread has not moved.
   */
  lemma {:induction false} AnswerTrueInsideCall(acts: seq<Action>, t: Thread, kind: Kind, empty: bool) returns (i: nat)
    requires PC(Exec(INIT, acts), t) == Compared(kind, empty)
    ensures i < |acts| && acts[i] == Step(t) && PC(Exec(INIT, acts[..i]), t) == InGetTail(kind)
    ensures empty <==> Exec(INIT, acts[..i]).values == []
    ensures forall j :: i < j <= |acts| ==> PC(Exec(INIT, acts[..j]), t) == Compared(kind, empty)
    decreases |acts|
  {
    assert acts[..|acts|] == acts;
    if acts != [] {
      var front, last := acts[..|acts| - 1], acts[|acts| - 1];
      var s := Exec(INIT, front);
      ExecLast(acts);
      if PC(s, t) == Compared(kind, empty) {
        i := AnswerTrueInsideCall(front, t, kind, empty);
        assert front[..i] == acts[..i];
        forall j | i < j <= |acts| ensures PC(Exec(INIT, acts[..j]), t) == Compared(kind, empty) {
          if j < |acts| {
            assert front[..j] == acts[..j];
          }
        }
      } else {
        i := |acts| - 1;
        RunsKeepInv(front);
        ReachesCompared(s, last, t, kind, empty);
      }
    }
  }

  lemma ReachesCompared(s: State, a: Action, t: Thread, kind: Kind, empty: bool)
    requires Inv(s) && PC(s, t) != Compared(kind, empty) && PC(Next(s, a), t) == Compared(kind, empty)
    ensures a == Step(t) && PC(s, t) == InGetTail(kind) && (empty <==> s.values == [])
  {
    if a.t != t {
      OthersLeaveCounter(s, a, t);
    }
    HeadMeetsTailIff(s);
  }

  /** No deadlock: while any call is in progress, some thread can take its next step, and it moves. */
  lemma SomeThreadCanStep(acts: seq<Action>, t: Thread) returns (u: Thread)
    requires PC(Exec(INIT, acts), t) != Idle
    ensures var s := Exec(INIT, acts); Enabled(s, Step(u)) && PC(Next(s, Step(u)), u) != PC(s, u)
  {
    RunsKeepInv(acts);
    var s := Exec(INIT, acts);
    if s.tailLock.Some? {
      u := s.tailLock.value;
      assert InTail(PC(s, u));
    } else if s.headLock.Some? {
      u := s.headLock.value;
      assert InHead(PC(s, u));
    } else {
      u := t;
    }
    assert KnowsAt(s, PC(s, u));
  }

  // ---- the class, one call at a time ----

  class QueueNode {
    var data: Option<Value>
    var next: QueueNode?

    constructor ()
      ensures data == None && next == null
    {
      data, next := None, null;
    }
  }

  class ThreadsafeQueue {
    var head: QueueNode
    var tail: QueueNode
    ghost var contents: seq<Value>
    ghost var spine: seq<QueueNode>

    ghost predicate Valid()
      reads this, spine
    {
      && |spine| == |contents| + 1 && spine[0] == head && spine[|contents|] == tail
      && (forall i, j :: 0 <= i < j < |spine| ==> spine[i] != spine[j])
      && (forall i :: 0 <= i < |contents| ==> spine[i].data == Some(contents[i]) && spine[i].next == spine[i + 1])
      && tail.data == None && tail.next == null
    }

    constructor ()
      ensures Valid() && contents == [] && fresh(spine)
    {
      var dummy := new QueueNode();
      head, tail, contents, spine := dummy, dummy, [], [dummy];
    }

    method IsEmpty() returns (empty: bool)
      requires Valid()
      ensures empty <==> contents == []
    {
      assert contents != [] ==> spine[0] != spine[|contents|];
      empty := head == tail;
    }

    method PushValue(v: Value)
      requires Valid()
      modifies this, tail
      ensures Valid() && contents == old(contents) + [v]
      ensures |spine| == |old(spine)| + 1 && old(spine) <= spine && fresh(spine[|old(spine)|])
    {
      var p := new QueueNode();
      tail.data := Some(v);
      tail.next := p;
      tail := p;
      contents, spine := contents + [v], spine + [p];
    }

    method PopHead() returns (v: Value)
      requires Valid() && contents != []
      modifies this
      ensures Valid() && old(contents) == [v] + contents && spine == old(spine)[1..]
    {
      var oldHead := head;
      assert oldHead == spine[0] && oldHead.next == spine[1];
      head := oldHead.next;
      v := oldHead.data.value;
      contents, spine := contents[1..], spine[1..];
    }

    method TryPopValue() returns (r: Option<Value>)
      requires Valid()
      modifies this
      ensures Valid() && (r == None <==> old(contents) == [])
      ensures old(contents) == (if r.Some? then [r.value] else []) + contents
      ensures spine == if r.Some? then old(spine)[1..] else old(spine)
    {
      var empty := IsEmpty();
      if empty {
        r := None;
      } else {
        var v := PopHead();
        r := Some(v);
      }
    }
  }
}
