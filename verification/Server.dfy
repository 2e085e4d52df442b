/**
 The life of connections across loops (myTinymuduo/resoure/Tcpserver.cpp, TcpConnection.cpp,
 Channel.cpp): a base loop that accepts and removes, and io loops that establish, dispatch events
 and destroy, with a queue of tasks for each loop.  Loop 0 is the base loop; it may also be the io
 loop of a connection, and then runInLoop runs its tasks at once.
 */
module Server {
  import opened Prelude
  import LogStream
  import Poller
  import Connection

  // ---- names ----

  const MAX_INT := 0x7fff_ffff

  /**
   ipPort is a dotted address and a port, at most 21 characters.  givesUp says whether sendInLoop
   returns when the connection is disconnected, as its log line says, or goes on, as written.
   */
  datatype Config = Config(name: string, ipPort: string, givesUp: bool)

  function ConnName(cfg: Config, id: int): string {
    cfg.name + Snprintf(64, "-" + cfg.ipPort + "#" + LogStream.Text(id))
  }

  lemma NameParts(cfg: Config, id: int)
    requires |cfg.ipPort| <= 21 && 0 < id <= MAX_INT
    ensures ConnName(cfg, id) == cfg.name + ("-" + cfg.ipPort + "#") + LogStream.Text(id)
  {
    LogStream.TextFits(id);
  }

  lemma SameSuffix(start: string, a: string, b: string)
    requires start + a == start + b
    ensures a == b
  {
    assert (start + a)[|start|..] == a;
  }

  /** Different connection numbers make different names. */
  lemma NamesDiffer(cfg: Config, a: int, b: int)
    requires |cfg.ipPort| <= 21 && 0 < a <= MAX_INT && 0 < b <= MAX_INT
    requires ConnName(cfg, a) == ConnName(cfg, b)
    ensures a == b
  {
    NameParts(cfg, a);
    NameParts(cfg, b);
    SameSuffix(cfg.name + ("-" + cfg.ipPort + "#"), LogStream.Text(a), LogStream.Text(b));
    LogStream.TextReadsBack(a);
    LogStream.TextReadsBack(b);
  }

  // ---- the state ----

  /** Where a connection is in its life; history, which the code does not keep. */
  datatype Stage = Accepted | Live | Closing | Removed | Gone

  datatype Moment = Up | Down | CloseHandler | ErrorHandler | ReadHandler | WriteHandler | Destroyed

  /** The channel: its mask, and whether the poller has it added (KAdded). */
  datatype Chan = Chan(reading: bool, writing: bool, registered: bool)

  const UNUSED := Chan(false, false, false)

  /** updateChannel: a channel that is not added is added, whatever its mask; an empty one is deleted. */
  function Updated(ch: Chan): Chan {
    ch.(registered := !ch.registered || ch.reading || ch.writing)
  }

  /** log is what happened to the connection. */
  datatype Conn = Conn(id: int, loop: nat, status: Connection.Status, chan: Chan, stage: Stage, log: seq<Moment>)

  datatype Task<T> = Establish(c: T) | RemoveInLoop(c: T) | DestroyConn(c: T)

  /** active holds, for each loop, the channels of the last poll that are still to be handled. */
  datatype State<T> =
    State(nextId: int, conns: map<T, Conn>, connections: map<string, T>,
          queues: seq<seq<Task<T>>>, active: seq<seq<T>>, asserted: bool)

  datatype ReadResult = Bytes | Zero | Error

  datatype Action<T> =
    | NewConnection(c: T, io: nat)
    | RunTask(loop: nat)
    | Poll(loop: nat, ready: seq<T>)
    | Dispatch(loop: nat, revents: Poller.Mask, read: ReadResult, drains: bool)
    | SendInLoop(c: T, leaves: bool)
    | StoreDisconnecting(c: T)

  // ---- the operations ----

  function Put<T>(s: State<T>, c: T, x: Conn): State<T> {
    s.(conns := s.conns[c := x])
  }

  function Note<T>(s: State<T>, c: T, m: Moment): State<T>
    requires c in s.conns
  {
    Put(s, c, s.conns[c].(log := s.conns[c].log + [m]))
  }

  function WithQueued<T>(s: State<T>, loop: nat, t: Task<T>): State<T> {
    if loop < |s.queues| then s.(queues := s.queues[loop := s.queues[loop] + [t]]) else s
  }

  function WithEstablished<T>(s: State<T>, c: T): State<T>
    requires c in s.conns
  {
    var x := s.conns[c];
    Put(s, c, x.(status := Connection.Connected, chan := Updated(x.chan.(reading := true)), stage := Live, log := x.log + [Up]))
  }

  function WithDestroyed<T>(s: State<T>, c: T): State<T>
    requires c in s.conns
  {
    var x := s.conns[c];
    var y := if x.status == Connection.Connected
             then x.(status := Connection.Disconnected, chan := UNUSED, log := x.log + [Down]) else x;
    Put(s, c, y.(chan := y.chan.(registered := false), stage := Gone, log := y.log + [Destroyed]))
  }

  /** On the base loop: the map must hold the connection. */
  function WithRemoved<T>(cfg: Config, s: State<T>, c: T): State<T>
    requires c in s.conns
  {
    var x, name := s.conns[c], ConnName(cfg, s.conns[c].id);
    var t := Put(s, c, x.(stage := Removed)).(connections := s.connections - {name},
                                              asserted := s.asserted && name in s.connections);
    if x.loop == 0 then WithDestroyed(t, c) else WithQueued(t, x.loop, DestroyConn(c))
  }

  /** handleClose, on the io loop, with its close callback removeConnection. */
  function WithClosed<T>(cfg: Config, s: State<T>, c: T): State<T>
    requires c in s.conns
  {
    var x := s.conns[c];
    var t := Put(s, c, x.(status := Connection.Disconnected, chan := Updated(x.chan.(reading := false, writing := false)),
                          stage := Closing, log := x.log + [Down]));
    if x.loop == 0 then WithRemoved(cfg, t, c) else WithQueued(t, 0, RemoveInLoop(c))
  }

  /** The close event that channel::handleEventWithGuard handles first. */
  predicate HangsUp(revents: Poller.Mask) {
    revents & Poller.EPOLLHUP != 0 && revents & Poller.EPOLLIN == 0
  }

  predicate Reads(revents: Poller.Mask) {
    revents & (Poller.EPOLLIN | Poller.EPOLLPRI) != 0
  }

  /** handleEventWithGuard: close, error, read and write, in this order and each on its own. */
  function WithEvent<T>(cfg: Config, s: State<T>, c: T, revents: Poller.Mask, read: ReadResult, drains: bool): State<T>
    requires c in s.conns
  {
    Handlers(cfg, s, c, HangsUp(revents), revents & Poller.EPOLLERR != 0, Reads(revents), Reads(revents) && read == Zero,
             revents & Poller.EPOLLOUT != 0, drains)
  }

  function Handlers<T>(cfg: Config, s: State<T>, c: T, hup: bool, err: bool, input: bool, ends: bool,
                       out: bool, drains: bool): (t: State<T>)
    requires c in s.conns
    ensures c in t.conns
  {
    var s1 := CloseIf(cfg, s, c, CloseHandler, hup, hup);
    var s2 := NoteIf(s1, c, ErrorHandler, err);
    var s3 := CloseIf(cfg, s2, c, ReadHandler, input, ends);
    DrainIf(NoteIf(s3, c, WriteHandler, out), c, out && drains)
  }

  /** The write handler that empties the output buffer turns the write interest off. */
  function DrainIf<T>(s: State<T>, c: T, drains: bool): (t: State<T>)
    requires c in s.conns
    ensures c in t.conns
  {
    var x := s.conns[c];
    if drains && x.chan.writing then Put(s, c, x.(chan := Updated(x.chan.(writing := false)))) else s
  }

  /** sendInLoop; leaves says that bytes go to the output buffer, which turns the write interest on. */
  function WithSend<T>(cfg: Config, s: State<T>, c: T, leaves: bool): State<T>
    requires c in s.conns
  {
    var x := s.conns[c];
    if (cfg.givesUp && x.status == Connection.Disconnected) || !leaves || x.chan.writing then s
    else Put(s, c, x.(chan := Updated(x.chan.(writing := true))))
  }

  function NoteIf<T>(s: State<T>, c: T, m: Moment, called: bool): (t: State<T>)
    requires c in s.conns
    ensures c in t.conns
  {
    if called then Note(s, c, m) else s
  }

  /** A handler that may be called, and then may close. */
  function CloseIf<T>(cfg: Config, s: State<T>, c: T, m: Moment, called: bool, closes: bool): (t: State<T>)
    requires c in s.conns
    ensures c in t.conns
  {
    var t := NoteIf(s, c, m, called);
    if closes then WithClosed(cfg, t, c) else t
  }

  /** An event that closes twice: hang-up and urgent data without input, and then nothing to read. */
  predicate ClosesTwice(revents: Poller.Mask, read: ReadResult) {
    HangsUp(revents) && revents & Poller.EPOLLPRI != 0 && read == Zero
  }

  function RunHead<T>(cfg: Config, s: State<T>, t: Task<T>): State<T>
    requires t.c in s.conns
  {
    match t
    case Establish(c) => WithEstablished(s, c)
    case RemoveInLoop(c) => WithRemoved(cfg, s, c)
    case DestroyConn(c) => WithDestroyed(s, c)
  }

  /** newConnection up to the runInLoop: the new connection is in the map. */
  function Entered<T>(cfg: Config, s: State<T>, c: T, io: nat): State<T> {
    var x := Conn(s.nextId, io, Connection.Connecting, UNUSED, Accepted, []);
    Put(s, c, x).(nextId := s.nextId + 1, connections := s.connections[ConnName(cfg, s.nextId) := c])
  }

  function Accept<T>(cfg: Config, s: State<T>, c: T, io: nat): State<T> {
    var t := Entered(cfg, s, c, io);
    if io == 0 then WithEstablished(t, c) else WithQueued(t, io, Establish(c))
  }

  /**
   Tasks run when the handlers of the last poll are done; the kernel reports channels that are
   added, each once, and a hang-up even with an empty mask.  A send that was queued while the
   connection was up runs as a task, at any later time, and a send on the loop thread while it is
   connected.  shutdown() on any thread, which reads the state and then stores, may store at any
   time after the connection was up.
   */
  ghost predicate Enabled<T>(s: State<T>, a: Action<T>) {
    match a
    case NewConnection(c, io) => c !in s.conns && io < |s.queues| && s.nextId <= MAX_INT
    case RunTask(l) => l < |s.queues| == |s.active| && s.active[l] == [] && s.queues[l] != [] && s.queues[l][0].c in s.conns
    case Poll(l, ready) =>
      && l < |s.active| && s.active[l] == []
      && (forall c :: c in ready ==> c in s.conns && s.conns[c].chan.registered && s.conns[c].loop == l)
      && (forall i, j :: 0 <= i < j < |ready| ==> ready[i] != ready[j])
    case Dispatch(l, _, _, _) => l < |s.active| && s.active[l] != [] && s.active[l][0] in s.conns
    case SendInLoop(c, _) =>
      && c in s.conns && Up in s.conns[c].log && s.conns[c].loop < |s.active|
      && (s.conns[c].status == Connection.Connected || s.active[s.conns[c].loop] == [])
    case StoreDisconnecting(c) => c in s.conns && Up in s.conns[c].log
  }

  ghost function Apply<T>(cfg: Config, s: State<T>, a: Action<T>): State<T>
    requires Enabled(s, a)
  {
    match a
    case NewConnection(c, io) => Accept(cfg, s, c, io)
    case RunTask(l) => RunHead(cfg, s.(queues := s.queues[l := s.queues[l][1..]]), s.queues[l][0])
    case Poll(l, ready) => s.(active := s.active[l := ready])
    case Dispatch(l, revents, read, drains) =>
      WithEvent(cfg, s.(active := s.active[l := s.active[l][1..]]), s.active[l][0], revents, read, drains)
    case SendInLoop(c, leaves) => WithSend(cfg, s, c, leaves)
    case StoreDisconnecting(c) => Put(s, c, s.conns[c].(status := Connection.Disconnecting))
  }

  ghost function Next<T>(cfg: Config, s: State<T>, a: Action<T>): State<T> {
    if Enabled(s, a) then Apply(cfg, s, a) else s
  }

  function Start<T>(loops: nat): State<T> {
    State(1, map[], map[], seq(loops, _ => []), seq(loops, _ => []), true)
  }

  ghost function ExecFrom<T>(cfg: Config, s: State<T>, run: seq<Action<T>>): State<T> {
    if run == [] then s else Next(cfg, ExecFrom(cfg, s, run[..|run| - 1]), run[|run| - 1])
  }

  ghost function Exec<T>(cfg: Config, loops: nat, run: seq<Action<T>>): State<T> {
    ExecFrom(cfg, Start(loops), run)
  }

  /** A send that turns the interest of a closed channel on again. */
  predicate Revives<T>(cfg: Config, s: State<T>, c: T, leaves: bool)
    requires c in s.conns
  {
    var x := s.conns[c];
    leaves && !x.chan.reading && !x.chan.writing && !(cfg.givesUp && x.status == Connection.Disconnected)
  }

  /** A step that does not close twice and does not revive a closed channel. */
  predicate Tame<T>(cfg: Config, s: State<T>, a: Action<T>) {
    && (a.Dispatch? ==> !ClosesTwice(a.revents, a.read))
    && (a.SendInLoop? && a.c in s.conns ==> !Revives(cfg, s, a.c, a.leaves))
  }

  ghost predicate TameRun<T>(cfg: Config, s: State<T>, run: seq<Action<T>>) {
    run != [] ==> TameRun(cfg, s, run[..|run| - 1]) && Tame(cfg, ExecFrom(cfg, s, run[..|run| - 1]), run[|run| - 1])
  }

  // ---- the invariant ----

  function Count(log: seq<Moment>, m: Moment): nat {
    multiset(log)[m]
  }

  /** The log of a connection at a stage of its life. */
  predicate LogFits(x: Conn) {
    && (x.stage == Accepted <==> x.log == [])
    && (x.log != [] ==> x.log[0] == Up && Count(x.log, Up) == 1)
    && Count(x.log, Down) == (if x.stage in {Accepted, Live} then 0 else 1)
    && Count(x.log, Destroyed) == (if x.stage == Gone then 1 else 0)
    && DownBeforeDestroyed(x.log)
  }

  predicate DownBeforeDestroyed(log: seq<Moment>) {
    forall j :: 0 <= j < |log| && log[j] == Destroyed ==> Down in log[..j]
  }

  predicate StatusFits(x: Conn) {
    && (x.stage == Accepted ==> x.status == Connection.Connecting)
    && (x.stage == Live ==> x.status == Connection.Connected || x.status == Connection.Disconnecting)
    && (x.stage in {Closing, Removed, Gone} ==> x.status == Connection.Disconnected || x.status == Connection.Disconnecting)
    && (if x.stage == Live then x.chan.reading && x.chan.registered else x.chan == UNUSED)
  }

  predicate InMap(x: Conn) {
    x.stage in {Accepted, Live, Closing}
  }

  /** The stage in which a task finds its connection, and the loop that runs it. */
  function StageOf<T>(t: Task<T>): Stage {
    match t case Establish(_) => Accepted case RemoveInLoop(_) => Closing case DestroyConn(_) => Removed
  }

  function LoopOf<T>(s: State<T>, t: Task<T>): nat
    requires t.c in s.conns
  {
    if t.RemoveInLoop? then 0 else s.conns[t.c].loop
  }

  ghost predicate TaskOk<T>(s: State<T>, l: nat, t: Task<T>) {
    t.c in s.conns && s.conns[t.c].stage == StageOf(t) && LoopOf(s, t) == l
  }

  ghost predicate Tasks<T>(s: State<T>) {
    && (forall l, i :: 0 <= l < |s.queues| && 0 <= i < |s.queues[l]| ==> TaskOk(s, l, s.queues[l][i]))
    && (forall l, i, j :: 0 <= l < |s.queues| && 0 <= i < j < |s.queues[l]| ==> s.queues[l][i] != s.queues[l][j])
  }

  /** The task that an unfinished connection waits for is queued. */
  ghost predicate Pending<T>(s: State<T>, c: T)
    requires c in s.conns && s.conns[c].loop < |s.queues|
  {
    var x := s.conns[c];
    && (x.stage == Accepted ==> Establish(c) in s.queues[x.loop])
    && (x.stage == Closing ==> RemoveInLoop(c) in s.queues[0])
    && (x.stage == Removed ==> DestroyConn(c) in s.queues[x.loop])
  }

  ghost predicate Active<T>(s: State<T>) {
    && (forall l, i :: 0 <= l < |s.active| && 0 <= i < |s.active[l]| ==>
          s.active[l][i] in s.conns && s.conns[s.active[l][i]].stage == Live && s.conns[s.active[l][i]].loop == l)
    && (forall l, i, j :: 0 <= l < |s.active| && 0 <= i < j < |s.active[l]| ==> s.active[l][i] != s.active[l][j])
  }

  function Names<T>(cfg: Config, conns: map<T, Conn>): map<T, string> {
    map c | c in conns :: ConnName(cfg, conns[c].id)
  }

  /** The server's map holds exactly the connections of the stages InMap, under their names. */
  ghost predicate MappedBy<T>(names: map<T, string>, conns: map<T, Conn>, connections: map<string, T>)
    requires names.Keys == conns.Keys
  {
    && (forall c, d :: c in conns && d in conns && conns[c].id == conns[d].id ==> c == d)
    && (forall n :: n in connections ==> connections[n] in conns && InMap(conns[connections[n]]) && n == names[connections[n]])
    && (forall c :: c in conns && InMap(conns[c]) ==> names[c] in connections && connections[names[c]] == c)
  }

  ghost predicate Mapped<T>(cfg: Config, s: State<T>) {
    MappedBy(Names(cfg, s.conns), s.conns, s.connections)
  }

  ghost predicate ConnOk<T>(s: State<T>, c: T)
    requires c in s.conns
  {
    var x := s.conns[c];
    && 0 < x.id < s.nextId && x.loop < |s.queues| && LogFits(x) && StatusFits(x) && Pending(s, c)
    && (x.stage in {Closing, Removed} ==> x.loop != 0)
  }

  ghost predicate Inv<T>(cfg: Config, s: State<T>) {
    && |s.queues| == |s.active| && |s.queues| > 0 && 0 < s.nextId <= MAX_INT + 1
    && s.asserted
    && Mapped(cfg, s) && Tasks(s) && Active(s)
    && forall c :: c in s.conns ==> ConnOk(s, c)
  }

  // ---- steps ----

  /** No task is queued for c, and no event of c waits to be handled. */
  ghost predicate Quiet<T>(s: State<T>, c: T) {
    forall l, i :: 0 <= l < |s.queues| && 0 <= i < |s.queues[l]| ==> s.queues[l][i].c != c
  }

  ghost predicate Idle<T>(s: State<T>, c: T) {
    forall l, i :: 0 <= l < |s.active| && 0 <= i < |s.active[l]| ==> s.active[l][i] != c
  }

  /** The invariant while c, alone, is being worked on. */
  ghost predicate Around<T>(s: State<T>, c: T) {
    && |s.queues| == |s.active| && |s.queues| > 0 && 0 < s.nextId <= MAX_INT + 1
    && s.asserted && c in s.conns
    && Tasks(s) && Active(s) && Quiet(s, c) && Idle(s, c)
    && forall d :: d in s.conns && d != c ==> ConnOk(s, d)
  }

  ghost predicate Others<T>(cfg: Config, s: State<T>, c: T) {
    Around(s, c) && Mapped(cfg, s)
  }

  ghost predicate Fits<T>(s: State<T>, c: T)
    requires c in s.conns
  {
    var x := s.conns[c];
    0 < x.id < s.nextId && x.loop < |s.queues| && LogFits(x) && StatusFits(x)
  }

  lemma PutAround<T>(s: State<T>, c: T, x: Conn)
    requires Around(s, c) && x.id == s.conns[c].id && x.loop == s.conns[c].loop
    ensures Around(Put(s, c, x), c)
  {
    var t := Put(s, c, x);
    forall d | d in t.conns && d != c ensures ConnOk(t, d) {
      assert ConnOk(s, d);
    }
    forall l, i | 0 <= l < |t.queues| && 0 <= i < |t.queues[l]| ensures TaskOk(t, l, t.queues[l][i]) {
      assert TaskOk(s, l, s.queues[l][i]);
    }
  }

  lemma PutMapped<T>(cfg: Config, s: State<T>, c: T, x: Conn)
    requires Mapped(cfg, s) && c in s.conns && x.id == s.conns[c].id && InMap(x) == InMap(s.conns[c])
    ensures Mapped(cfg, Put(s, c, x))
  {
    assert Names(cfg, s.conns[c := x]) == Names(cfg, s.conns);
  }

  lemma PutOthers<T>(cfg: Config, s: State<T>, c: T, x: Conn)
    requires Others(cfg, s, c) && x.id == s.conns[c].id && x.loop == s.conns[c].loop && InMap(x) == InMap(s.conns[c])
    ensures Others(cfg, Put(s, c, x), c)
  {
    PutAround(s, c, x);
    PutMapped(cfg, s, c, x);
  }

  /** Names of connections whose numbers differ. */
  lemma OtherName<T>(cfg: Config, conns: map<T, Conn>, c: T, id: int)
    requires |cfg.ipPort| <= 21 && c in conns && 0 < conns[c].id <= MAX_INT && 0 < id <= MAX_INT && conns[c].id != id
    ensures Names(cfg, conns)[c] != ConnName(cfg, id)
  {
    if ConnName(cfg, conns[c].id) == ConnName(cfg, id) {
      NamesDiffer(cfg, conns[c].id, id);
    }
  }

  lemma UnmappedBy<T>(names: map<T, string>, conns: map<T, Conn>, connections: map<string, T>, c: T, x: Conn)
    requires names.Keys == conns.Keys && MappedBy(names, conns, connections)
    requires c in conns && x.id == conns[c].id && !InMap(x) && names[c] in connections && connections[names[c]] == c
    requires forall d :: d in conns && d != c ==> names[d] != names[c]
    ensures MappedBy(names, conns[c := x], connections - {names[c]})
  {
  }

  lemma UnmapMapped<T>(cfg: Config, s: State<T>, c: T, x: Conn)
    requires |cfg.ipPort| <= 21 && s.nextId <= MAX_INT + 1
    requires Mapped(cfg, s) && c in s.conns && x.id == s.conns[c].id && InMap(s.conns[c]) && !InMap(x)
    requires forall d :: d in s.conns ==> 0 < s.conns[d].id < s.nextId
    ensures Mapped(cfg, Put(s, c, x).(connections := s.connections - {ConnName(cfg, x.id)}))
  {
    var names := Names(cfg, s.conns);
    forall d | d in s.conns && d != c ensures names[d] != names[c] {
      OtherName(cfg, s.conns, d, x.id);
    }
    assert names[c] == ConnName(cfg, x.id);
    UnmappedBy(names, s.conns, s.connections, c, x);
    assert Names(cfg, s.conns[c := x]) == names;
  }

  /** Taking c out of the map finds it there. */
  lemma UnmapOthers<T>(cfg: Config, s: State<T>, c: T, x: Conn)
    requires |cfg.ipPort| <= 21
    requires Others(cfg, s, c) && Fits(s, c) && InMap(s.conns[c])
    requires x == s.conns[c].(stage := Removed)
    ensures var name := ConnName(cfg, x.id);
            && name in s.connections
            && Others(cfg, Put(s, c, x).(connections := s.connections - {name},
                                         asserted := s.asserted && name in s.connections), c)
  {
    var name := ConnName(cfg, x.id);
    var t := Put(s, c, x).(connections := s.connections - {name}, asserted := s.asserted && name in s.connections);
    assert name in s.connections;
    forall d | d in s.conns ensures 0 < s.conns[d].id < s.nextId {
      assert d != c ==> ConnOk(s, d);
    }
    UnmapMapped(cfg, s, c, x);
    PutAround(s, c, x);
    SameConns(Put(s, c, x), t, c);
  }

  lemma SameConns<T>(s: State<T>, t: State<T>, c: T)
    requires Around(s, c) && t == s.(connections := t.connections)
    ensures Around(t, c)
  {
    forall d | d in t.conns && d != c ensures ConnOk(t, d) {
      assert ConnOk(s, d);
    }
    forall l, i | 0 <= l < |t.queues| && 0 <= i < |t.queues[l]| ensures TaskOk(t, l, t.queues[l][i]) {
      assert TaskOk(s, l, s.queues[l][i]);
    }
  }

  lemma Settle<T>(cfg: Config, s: State<T>, c: T)
    requires Others(cfg, s, c) && Fits(s, c) && s.conns[c].stage in {Live, Gone}
    ensures Inv(cfg, s)
  {
    assert ConnOk(s, c);
  }

  lemma SettleQueued<T>(cfg: Config, s: State<T>, c: T, t: Task<T>)
    requires Others(cfg, s, c) && Fits(s, c) && t.c == c && s.conns[c].stage == StageOf(t) && s.conns[c].loop != 0
    ensures Inv(cfg, WithQueued(s, LoopOf(s, t), t))
  {
    var l := LoopOf(s, t);
    var u := WithQueued(s, l, t);
    assert u.queues[l][|s.queues[l]|] == t;
    TasksPush(s, t);
    forall d | d in u.conns ensures ConnOk(u, d) {
      if d != c {
        assert ConnOk(s, d);
        PendingStays(s, l, t, d);
      }
    }
  }

  lemma TasksPush<T>(s: State<T>, t: Task<T>)
    requires Tasks(s) && t.c in s.conns && Quiet(s, t.c) && TaskOk(s, LoopOf(s, t), t)
    ensures Tasks(WithQueued(s, LoopOf(s, t), t))
  {
    var l := LoopOf(s, t);
    var u := WithQueued(s, l, t);
    if l < |s.queues| {
      forall k, i | 0 <= k < |u.queues| && 0 <= i < |u.queues[k]|
        ensures TaskOk(u, k, u.queues[k][i]) && (i < |s.queues[k]| ==> u.queues[k][i].c != t.c)
      {
        if i < |s.queues[k]| {
          assert u.queues[k][i] == s.queues[k][i] && TaskOk(s, k, s.queues[k][i]);
        } else {
          assert k == l && u.queues[k][i] == t;
        }
      }
      forall k, i, j | 0 <= k < |u.queues| && 0 <= i < j < |u.queues[k]| ensures u.queues[k][i] != u.queues[k][j] {
        if j < |s.queues[k]| {
          assert s.queues[k][i] != s.queues[k][j];
        } else {
          assert k == l && u.queues[k][j] == t;
        }
      }
    }
  }

  lemma PendingStays<T>(s: State<T>, l: nat, t: Task<T>, d: T)
    requires l < |s.queues| && d in s.conns && s.conns[d].loop < |s.queues| && Pending(s, d)
    ensures Pending(WithQueued(s, l, t), d)
  {
  }

  /** A live connection that is not waiting for its handlers can be worked on. */
  lemma Unsettle<T>(cfg: Config, s: State<T>, c: T)
    requires Inv(cfg, s) && c in s.conns && s.conns[c].stage == Live && Idle(s, c)
    ensures Others(cfg, s, c) && Fits(s, c)
  {
    assert ConnOk(s, c);
    forall l, i | 0 <= l < |s.queues| && 0 <= i < |s.queues[l]| ensures s.queues[l][i].c != c {
      assert TaskOk(s, l, s.queues[l][i]);
    }
  }

  /** With its task taken off the queue, a connection can be worked on. */
  lemma PopTask<T>(cfg: Config, s: State<T>, l: nat)
    requires Inv(cfg, s) && l < |s.queues| && s.queues[l] != []
    ensures var t, u := s.queues[l][0], s.(queues := s.queues[l := s.queues[l][1..]]);
            Others(cfg, u, t.c) && Fits(u, t.c) && u.conns[t.c].stage == StageOf(t) && LoopOf(u, t) == l
  {
    var t, u := s.queues[l][0], s.(queues := s.queues[l := s.queues[l][1..]]);
    assert TaskOk(s, l, t) && ConnOk(s, t.c);
    forall k, i | 0 <= k < |u.queues| && 0 <= i < |u.queues[k]|
      ensures TaskOk(u, k, u.queues[k][i]) && u.queues[k][i].c != t.c
    {
      var j := if k == l then i + 1 else i;
      assert u.queues[k][i] == s.queues[k][j] && TaskOk(s, k, s.queues[k][j]);
      assert s.queues[l][0] != s.queues[k][j] || k != l;
    }
    forall k, i, j | 0 <= k < |u.queues| && 0 <= i < j < |u.queues[k]| ensures u.queues[k][i] != u.queues[k][j] {
      var m := if k == l then 1 else 0;
      assert s.queues[k][i + m] != s.queues[k][j + m];
    }
    forall d | d in u.conns && d != t.c ensures ConnOk(u, d) {
      assert ConnOk(s, d);
      PendingPops(s, l, d);
    }
  }

  lemma PendingPops<T>(s: State<T>, l: nat, d: T)
    requires l < |s.queues| && s.queues[l] != [] && s.queues[l][0].c != d
    requires d in s.conns && s.conns[d].loop < |s.queues| && Pending(s, d)
    ensures Pending(s.(queues := s.queues[l := s.queues[l][1..]]), d)
  {
    var q := s.queues[l];
    assert forall t: Task<T> :: t in q && t != q[0] ==> t in q[1..];
  }

  lemma EstablishKeeps<T>(cfg: Config, s: State<T>, c: T)
    requires Others(cfg, s, c) && Fits(s, c) && s.conns[c].stage == Accepted
    ensures Inv(cfg, WithEstablished(s, c))
  {
    var x := s.conns[c];
    var y := x.(status := Connection.Connected, chan := Updated(x.chan.(reading := true)), stage := Live, log := x.log + [Up]);
    OrderGrows(x.log, y.log[|x.log|]);
    PutOthers(cfg, s, c, y);
    Settle(cfg, Put(s, c, y), c);
  }

  lemma DestroyKeeps<T>(cfg: Config, s: State<T>, c: T)
    requires Others(cfg, s, c) && Fits(s, c) && s.conns[c].stage == Removed
    ensures Inv(cfg, WithDestroyed(s, c))
  {
    var x := s.conns[c];
    var y := x.(stage := Gone, log := x.log + [Destroyed]);
    OrderGrows(x.log, y.log[|x.log|]);
    PutOthers(cfg, s, c, y);
    Settle(cfg, Put(s, c, y), c);
  }

  lemma RemoveKeeps<T>(cfg: Config, s: State<T>, c: T)
    requires |cfg.ipPort| <= 21
    requires Others(cfg, s, c) && Fits(s, c) && s.conns[c].stage == Closing
    ensures Inv(cfg, WithRemoved(cfg, s, c))
  {
    var x, name := s.conns[c], ConnName(cfg, s.conns[c].id);
    var y := x.(stage := Removed);
    var t := Put(s, c, y).(connections := s.connections - {name}, asserted := s.asserted && name in s.connections);
    UnmapOthers(cfg, s, c, y);
    if x.loop == 0 {
      DestroyKeeps(cfg, t, c);
    } else {
      SettleQueued(cfg, t, c, DestroyConn(c));
    }
  }

  lemma CloseKeeps<T>(cfg: Config, s: State<T>, c: T)
    requires |cfg.ipPort| <= 21
    requires Inv(cfg, s) && c in s.conns && s.conns[c].stage == Live && Idle(s, c)
    ensures Inv(cfg, WithClosed(cfg, s, c))
  {
    Unsettle(cfg, s, c);
    var x := s.conns[c];
    var y := x.(status := Connection.Disconnected, chan := UNUSED, stage := Closing, log := x.log + [Down]);
    assert Updated(x.chan.(reading := false, writing := false)) == UNUSED;
    OrderGrows(x.log, Down);
    PutOthers(cfg, s, c, y);
    var t := Put(s, c, y);
    if x.loop == 0 {
      RemoveKeeps(cfg, t, c);
    } else {
      SettleQueued(cfg, t, c, RemoveInLoop(c));
    }
  }

  predicate IsHandler(m: Moment) {
    m in {CloseHandler, ErrorHandler, ReadHandler, WriteHandler}
  }

  lemma LogGrows(x: Conn, m: Moment)
    requires LogFits(x) && x.log != [] && IsHandler(m)
    ensures LogFits(x.(log := x.log + [m]))
  {
    assert multiset(x.log + [m]) == multiset(x.log) + multiset{m};
    OrderGrows(x.log, m);
  }

  lemma OrderGrows(log: seq<Moment>, m: Moment)
    requires DownBeforeDestroyed(log) && (m == Destroyed ==> Down in log)
    ensures DownBeforeDestroyed(log + [m])
  {
    forall j | 0 <= j < |log + [m]| && (log + [m])[j] == Destroyed ensures Down in (log + [m])[..j] {
      assert (log + [m])[..j] == log[..j];
      assert log[..|log|] == log;
    }
  }

  lemma PutTasks<T>(s: State<T>, c: T, x: Conn)
    requires Tasks(s) && c in s.conns && x.loop == s.conns[c].loop && x.stage == s.conns[c].stage
    ensures Tasks(Put(s, c, x))
  {
    var t := Put(s, c, x);
    forall l, i | 0 <= l < |t.queues| && 0 <= i < |t.queues[l]| ensures TaskOk(t, l, t.queues[l][i]) {
      assert TaskOk(s, l, s.queues[l][i]);
    }
  }

  lemma PutActive<T>(s: State<T>, c: T, x: Conn)
    requires Active(s) && c in s.conns && x.loop == s.conns[c].loop && x.stage == s.conns[c].stage
    ensures Active(Put(s, c, x))
  {
  }

  lemma PutConnOk<T>(s: State<T>, c: T, x: Conn, d: T)
    requires c in s.conns && ConnOk(s, c) && LogFits(x) && StatusFits(x)
    requires x.id == s.conns[c].id && x.loop == s.conns[c].loop && x.stage == s.conns[c].stage
    requires d in s.conns && ConnOk(s, d)
    ensures ConnOk(Put(s, c, x), d)
  {
  }

  /** A record that changes within its stage. */
  lemma PutKeeps<T>(cfg: Config, s: State<T>, c: T, x: Conn)
    requires Inv(cfg, s) && c in s.conns && LogFits(x) && StatusFits(x)
    requires x.id == s.conns[c].id && x.loop == s.conns[c].loop && x.stage == s.conns[c].stage
    ensures Inv(cfg, Put(s, c, x))
  {
    assert ConnOk(s, c);
    forall d | d in s.conns ensures ConnOk(Put(s, c, x), d) {
      PutConnOk(s, c, x, d);
    }
    PutMapped(cfg, s, c, x);
    PutTasks(s, c, x);
    PutActive(s, c, x);
  }

  lemma NoteKeeps<T>(cfg: Config, s: State<T>, c: T, m: Moment)
    requires Inv(cfg, s) && c in s.conns && s.conns[c].log != [] && IsHandler(m)
    ensures Inv(cfg, Note(s, c, m))
  {
    assert ConnOk(s, c);
    LogGrows(s.conns[c], m);
    PutKeeps(cfg, s, c, s.conns[c].(log := s.conns[c].log + [m]));
  }

  lemma DrainKeeps<T>(cfg: Config, s: State<T>, c: T, drains: bool)
    requires Inv(cfg, s) && c in s.conns
    ensures Inv(cfg, DrainIf(s, c, drains))
  {
    assert ConnOk(s, c);
    PutKeeps(cfg, s, c, DrainIf(s, c, drains).conns[c]);
  }

  lemma SendKeeps<T>(cfg: Config, s: State<T>, c: T, leaves: bool)
    requires Inv(cfg, s) && Enabled(s, SendInLoop(c, leaves)) && !Revives(cfg, s, c, leaves)
    ensures Inv(cfg, WithSend(cfg, s, c, leaves))
  {
    assert ConnOk(s, c);
    PutKeeps(cfg, s, c, WithSend(cfg, s, c, leaves).conns[c]);
  }

  lemma EnteredOthers<T>(cfg: Config, s: State<T>, c: T, io: nat)
    requires |cfg.ipPort| <= 21 && Inv(cfg, s) && c !in s.conns && io < |s.queues| && s.nextId <= MAX_INT
    ensures var t := Entered(cfg, s, c, io);
            Others(cfg, t, c) && Fits(t, c) && t.conns[c].stage == Accepted && t.conns[c].loop == io
  {
    var t := Entered(cfg, s, c, io);
    forall d | d in s.conns ensures ConnOk(t, d) && 0 < s.conns[d].id < s.nextId {
      assert ConnOk(s, d);
    }
    AcceptAround(s, t, c, t.conns[c]);
    AcceptMapped(cfg, s, c, t.conns[c]);
  }

  lemma AcceptKeeps<T>(cfg: Config, s: State<T>, c: T, io: nat)
    requires |cfg.ipPort| <= 21
    requires Inv(cfg, s) && Enabled(s, NewConnection(c, io))
    ensures Inv(cfg, Accept(cfg, s, c, io))
  {
    EnteredOthers(cfg, s, c, io);
    if io == 0 {
      EstablishKeeps(cfg, Entered(cfg, s, c, io), c);
    } else {
      SettleQueued(cfg, Entered(cfg, s, c, io), c, Establish(c));
    }
  }

  lemma MappedToo<T>(names: map<T, string>, conns: map<T, Conn>, connections: map<string, T>, c: T, x: Conn, name: string)
    requires names.Keys == conns.Keys && MappedBy(names, conns, connections)
    requires c !in conns && InMap(x)
    requires forall d :: d in conns ==> names[d] != name && conns[d].id != x.id
    ensures MappedBy(names[c := name], conns[c := x], connections[name := c])
  {
  }

  lemma AcceptMapped<T>(cfg: Config, s: State<T>, c: T, x: Conn)
    requires |cfg.ipPort| <= 21 && Mapped(cfg, s) && c !in s.conns
    requires x.id == s.nextId && 0 < x.id <= MAX_INT && InMap(x)
    requires forall d :: d in s.conns ==> 0 < s.conns[d].id < s.nextId
    ensures Mapped(cfg, Put(s, c, x).(nextId := s.nextId + 1, connections := s.connections[ConnName(cfg, x.id) := c]))
  {
    var name := ConnName(cfg, x.id);
    var names := Names(cfg, s.conns);
    forall d | d in s.conns ensures names[d] != name {
      OtherName(cfg, s.conns, d, x.id);
    }
    MappedToo(names, s.conns, s.connections, c, x, name);
    assert Names(cfg, s.conns[c := x]) == names[c := name];
  }

  lemma AcceptAround<T>(s: State<T>, t: State<T>, c: T, x: Conn)
    requires |s.queues| == |s.active| && |s.queues| > 0 && s.asserted && Tasks(s) && Active(s)
    requires c !in s.conns && t.conns == s.conns[c := x] && 0 < t.nextId <= MAX_INT + 1
    requires t == s.(conns := t.conns, nextId := t.nextId, connections := t.connections)
    requires forall d :: d in s.conns ==> ConnOk(t, d)
    ensures Around(t, c)
  {
    forall l, i | 0 <= l < |t.queues| && 0 <= i < |t.queues[l]| ensures TaskOk(t, l, t.queues[l][i]) && t.queues[l][i].c != c {
      assert TaskOk(s, l, s.queues[l][i]);
    }
  }

  lemma RunTaskKeeps<T>(cfg: Config, s: State<T>, l: nat)
    requires |cfg.ipPort| <= 21
    requires Inv(cfg, s) && Enabled(s, RunTask(l))
    ensures Inv(cfg, Apply(cfg, s, RunTask(l)))
  {
    PopTask(cfg, s, l);
    var t, u := s.queues[l][0], s.(queues := s.queues[l := s.queues[l][1..]]);
    match t
    case Establish(c) => EstablishKeeps(cfg, u, c);
    case RemoveInLoop(c) => RemoveKeeps(cfg, u, c);
    case DestroyConn(c) => DestroyKeeps(cfg, u, c);
  }

  lemma ActiveChangeKeeps<T>(cfg: Config, s: State<T>, active: seq<seq<T>>)
    requires Inv(cfg, s) && |active| == |s.active| && Active(s.(active := active))
    ensures Inv(cfg, s.(active := active))
  {
    var t := s.(active := active);
    forall d | d in t.conns ensures ConnOk(t, d) {
      assert ConnOk(s, d);
    }
    forall l, i | 0 <= l < |t.queues| && 0 <= i < |t.queues[l]| ensures TaskOk(t, l, t.queues[l][i]) {
      assert TaskOk(s, l, s.queues[l][i]);
    }
  }

  lemma PollKeeps<T>(cfg: Config, s: State<T>, l: nat, ready: seq<T>)
    requires Inv(cfg, s) && Enabled(s, Poll(l, ready))
    ensures Inv(cfg, Apply(cfg, s, Poll(l, ready)))
  {
    forall i | 0 <= i < |ready| ensures s.conns[ready[i]].stage == Live {
      assert ready[i] in ready && ConnOk(s, ready[i]);
    }
    ActiveChangeKeeps(cfg, s, s.active[l := ready]);
  }

  /** The channel whose turn it is belongs to a live connection, and to nobody's list any more. */
  lemma PopActive<T>(cfg: Config, s: State<T>, l: nat)
    requires Inv(cfg, s) && l < |s.active| && s.active[l] != []
    ensures var c, t := s.active[l][0], s.(active := s.active[l := s.active[l][1..]]);
            && Inv(cfg, t) && Idle(t, c) && c in t.conns
            && t.conns[c].stage == Live && t.conns[c].loop == l && t.conns[c].log != []
  {
    var c, t := s.active[l][0], s.(active := s.active[l := s.active[l][1..]]);
    forall k, i | 0 <= k < |t.active| && 0 <= i < |t.active[k]|
      ensures t.active[k][i] == s.active[k][if k == l then i + 1 else i] && t.active[k][i] != c
    {
      assert s.active[k][if k == l then i + 1 else i] != s.active[l][0] || k != l;
    }
    ActiveChangeKeeps(cfg, s, t.active);
    assert ConnOk(s, c);
  }

  lemma HandlersKeep<T>(cfg: Config, s: State<T>, c: T, hup: bool, err: bool, input: bool, ends: bool, out: bool, drains: bool)
    requires |cfg.ipPort| <= 21 && !(hup && ends) && (ends ==> input)
    requires Inv(cfg, s) && Idle(s, c) && c in s.conns && s.conns[c].stage == Live && s.conns[c].log != []
    ensures Inv(cfg, Handlers(cfg, s, c, hup, err, input, ends, out, drains))
  {
    var s1 := CloseIf(cfg, s, c, CloseHandler, hup, hup);
    CloseIfKeeps(cfg, s, c, CloseHandler, hup, hup);
    var s2 := NoteIf(s1, c, ErrorHandler, err);
    NoteIfKeeps(cfg, s1, c, ErrorHandler, err);
    var s3 := CloseIf(cfg, s2, c, ReadHandler, input, ends);
    CloseIfKeeps(cfg, s2, c, ReadHandler, input, ends);
    var s4 := NoteIf(s3, c, WriteHandler, out);
    NoteIfKeeps(cfg, s3, c, WriteHandler, out);
    DrainKeeps(cfg, s4, c, out && drains);
  }

  lemma DispatchKeeps<T>(cfg: Config, s: State<T>, c: T, revents: Poller.Mask, read: ReadResult, drains: bool)
    requires |cfg.ipPort| <= 21 && !ClosesTwice(revents, read)
    requires Inv(cfg, s) && Idle(s, c) && c in s.conns && s.conns[c].stage == Live && s.conns[c].log != []
    ensures Inv(cfg, WithEvent(cfg, s, c, revents, read, drains))
  {
    NotBoth(revents, read);
    HandlersKeep(cfg, s, c, HangsUp(revents), revents & Poller.EPOLLERR != 0, Reads(revents), Reads(revents) && read == Zero,
                 revents & Poller.EPOLLOUT != 0, drains);
  }

  lemma NotBoth(revents: Poller.Mask, read: ReadResult)
    ensures HangsUp(revents) && Reads(revents) && read == Zero <==> ClosesTwice(revents, read)
  {
  }

  lemma NoteIfKeeps<T>(cfg: Config, s: State<T>, c: T, m: Moment, called: bool)
    requires Inv(cfg, s) && c in s.conns && s.conns[c].log != [] && IsHandler(m)
    ensures var t := NoteIf(s, c, m, called);
            Inv(cfg, t) && t.conns[c].log != [] && t.conns[c].stage == s.conns[c].stage && t.active == s.active
  {
    if called {
      NoteKeeps(cfg, s, c, m);
    }
  }

  lemma CloseIfKeeps<T>(cfg: Config, s: State<T>, c: T, m: Moment, called: bool, closes: bool)
    requires |cfg.ipPort| <= 21
    requires Inv(cfg, s) && c in s.conns && s.conns[c].log != [] && IsHandler(m)
    requires closes ==> s.conns[c].stage == Live && Idle(s, c)
    ensures var t := CloseIf(cfg, s, c, m, called, closes);
            && Inv(cfg, t) && t.conns[c].log != []
            && (!closes ==> t.conns[c].stage == s.conns[c].stage && t.active == s.active)
  {
    NoteIfKeeps(cfg, s, c, m, called);
    if closes {
      CloseKeeps(cfg, NoteIf(s, c, m, called), c);
    }
  }

  lemma StoreKeeps<T>(cfg: Config, s: State<T>, c: T)
    requires Inv(cfg, s) && Enabled(s, StoreDisconnecting(c))
    ensures Inv(cfg, Apply(cfg, s, StoreDisconnecting(c)))
  {
    assert ConnOk(s, c);
    PutKeeps(cfg, s, c, s.conns[c].(status := Connection.Disconnecting));
  }

  lemma StepKeepsInv<T>(cfg: Config, s: State<T>, a: Action<T>)
    requires |cfg.ipPort| <= 21 && Inv(cfg, s) && Tame(cfg, s, a)
    ensures Inv(cfg, Next(cfg, s, a))
  {
    if Enabled(s, a) {
      match a
      case NewConnection(c, io) => AcceptKeeps(cfg, s, c, io);
      case RunTask(l) => RunTaskKeeps(cfg, s, l);
      case Poll(l, ready) => PollKeeps(cfg, s, l, ready);
      case Dispatch(l, revents, read, drains) =>
        PopActive(cfg, s, l);
        DispatchKeeps(cfg, s.(active := s.active[l := s.active[l][1..]]), s.active[l][0], revents, read, drains);
      case SendInLoop(c, leaves) => SendKeeps(cfg, s, c, leaves);
      case StoreDisconnecting(c) => StoreKeeps(cfg, s, c);
    }
  }

  lemma {:induction false} RunsKeepInv<T>(cfg: Config, s: State<T>, run: seq<Action<T>>)
    requires |cfg.ipPort| <= 21 && Inv(cfg, s) && TameRun(cfg, s, run)
    ensures Inv(cfg, ExecFrom(cfg, s, run))
    decreases |run|
  {
    if run != [] {
      RunsKeepInv(cfg, s, run[..|run| - 1]);
      StepKeepsInv(cfg, ExecFrom(cfg, s, run[..|run| - 1]), run[|run| - 1]);
    }
  }

  lemma StartInv<T>(cfg: Config, loops: nat)
    requires loops > 0
    ensures Inv(cfg, Start<T>(loops))
  {
  }

  // ---- what every run guarantees ----

  /**
   In every run of tame steps: the assertion in removeConnectionInLoop never
   fails; what happens first to a connection is its one UP, which waits in a queue until then; it
   sees at most one DOWN; and it is destroyed at most once, after DOWN and when the map no longer
   holds it.
   */
  lemma ConnectionLives<T>(cfg: Config, loops: nat, run: seq<Action<T>>, c: T)
    requires |cfg.ipPort| <= 21 && loops > 0 && TameRun(cfg, Start(loops), run)
    requires c in Exec(cfg, loops, run).conns
    ensures var s := Exec(cfg, loops, run);
            var x := s.conns[c];
            && s.asserted
            && (if x.log == [] then x.loop < |s.queues| && Establish(c) in s.queues[x.loop]
                else x.log[0] == Up && Count(x.log, Up) == 1)
            && Count(x.log, Down) <= 1 && Count(x.log, Destroyed) <= 1
            && DownBeforeDestroyed(x.log)
            && (Destroyed in x.log ==> ConnName(cfg, x.id) !in s.connections)
            && (Down in x.log && Destroyed !in x.log ==>
                  0 < |s.queues| && x.loop < |s.queues|
                  && if ConnName(cfg, x.id) in s.connections then RemoveInLoop(c) in s.queues[0]
                     else DestroyConn(c) in s.queues[x.loop])
  {
    StartInv<T>(cfg, loops);
    RunsKeepInv(cfg, Start(loops), run);
    MapHoldsIff(cfg, Exec(cfg, loops, run), c);
    assert ConnOk(Exec(cfg, loops, run), c);
  }

  lemma MapHoldsIff<T>(cfg: Config, s: State<T>, c: T)
    requires |cfg.ipPort| <= 21 && Inv(cfg, s) && c in s.conns
    ensures ConnName(cfg, s.conns[c].id) in s.connections <==> InMap(s.conns[c])
  {
    var name := ConnName(cfg, s.conns[c].id);
    assert ConnOk(s, c);
    if name in s.connections {
      var d := s.connections[name];
      assert ConnOk(s, d);
      NamesDiffer(cfg, s.conns[d].id, s.conns[c].id);
    }
  }

  /** An established connection of loop l that has not gone down and that the map holds. */
  ghost predicate Ready<T>(cfg: Config, s: State<T>, l: nat, c: T) {
    && c in s.conns && s.conns[c].loop == l && s.conns[c].chan.registered
    && Up in s.conns[c].log && Down !in s.conns[c].log
    && var name := ConnName(cfg, s.conns[c].id); name in s.connections && s.connections[name] == c
  }

  /**
   Whenever a channel waits to be handled, its connection was established, has not gone down,
   and is held by the map, so that the tie of the channel can be locked.
   */
  lemma HandlersFindLiveConnections<T>(cfg: Config, loops: nat, run: seq<Action<T>>)
    requires |cfg.ipPort| <= 21 && loops > 0 && TameRun(cfg, Start(loops), run)
    ensures var s := Exec(cfg, loops, run);
            forall l, i :: 0 <= l < |s.active| && 0 <= i < |s.active[l]| ==> Ready(cfg, s, l, s.active[l][i])
  {
    StartInv<T>(cfg, loops);
    RunsKeepInv(cfg, Start(loops), run);
    var s := Exec(cfg, loops, run);
    forall l, i | 0 <= l < |s.active| && 0 <= i < |s.active[l]| ensures Ready(cfg, s, l, s.active[l][i]) {
      ActiveReady(cfg, s, l, i);
    }
  }

  lemma ActiveReady<T>(cfg: Config, s: State<T>, l: nat, i: nat)
    requires Inv(cfg, s) && l < |s.active| && i < |s.active[l]|
    ensures Ready(cfg, s, l, s.active[l][i])
  {
    var c := s.active[l][i];
    assert ConnOk(s, c);
    assert s.conns[c].log[0] in s.conns[c].log;
  }

  // ---- what a step does to its connection ----

  /** What an event makes happen, in order; on the base loop a close destroys the connection at once. */
  function Calls(hup: bool, err: bool, input: bool, ends: bool, out: bool, base: bool): seq<Moment> {
    When(hup, [CloseHandler]) + When(hup, Close(base)) + When(err, [ErrorHandler])
    + When(input, [ReadHandler]) + When(ends, Close(base)) + When(out, [WriteHandler])
  }

  function When(called: bool, log: seq<Moment>): seq<Moment> {
    if called then log else []
  }

  function Close(base: bool): seq<Moment> {
    if base then [Down, Destroyed] else [Down]
  }

  lemma CloseIfLogs<T>(cfg: Config, s: State<T>, c: T, m: Moment, called: bool, closes: bool)
    requires c in s.conns
    ensures var x, y := s.conns[c], CloseIf(cfg, s, c, m, called, closes).conns[c];
            && y.loop == x.loop
            && y.log == x.log + When(called, [m]) + When(closes, Close(x.loop == 0))
            && (closes ==> y.status == Connection.Disconnected && !y.chan.reading && !y.chan.writing)
            && (!closes ==> y.status == x.status && y.chan == x.chan)
  {
  }

  lemma WriteLogs<T>(s: State<T>, c: T, out: bool, drains: bool)
    requires c in s.conns
    ensures var x, y := s.conns[c], DrainIf(NoteIf(s, c, WriteHandler, out), c, out && drains).conns[c];
            && y.log == x.log + When(out, [WriteHandler]) && y.status == x.status
            && y.chan.reading == x.chan.reading && y.chan.writing == (x.chan.writing && !(out && drains))
  {
  }

  lemma HandlersLog<T>(cfg: Config, s: State<T>, c: T, hup: bool, err: bool, input: bool, ends: bool, out: bool, drains: bool)
    requires c in s.conns
    ensures var x, y := s.conns[c], Handlers(cfg, s, c, hup, err, input, ends, out, drains).conns[c];
            && y.log == x.log + Calls(hup, err, input, ends, out, x.loop == 0)
            && (hup || ends ==> y.status == Connection.Disconnected && !y.chan.reading && !y.chan.writing)
            && (!hup && !ends ==> y.status == x.status && y.chan.reading == x.chan.reading
                                  && y.chan.writing == (x.chan.writing && !(out && drains)))
  {
    var s1 := CloseIf(cfg, s, c, CloseHandler, hup, hup);
    CloseIfLogs(cfg, s, c, CloseHandler, hup, hup);
    var s2 := CloseIf(cfg, s1, c, ErrorHandler, err, false);
    CloseIfLogs(cfg, s1, c, ErrorHandler, err, false);
    var s3 := CloseIf(cfg, s2, c, ReadHandler, input, ends);
    CloseIfLogs(cfg, s2, c, ReadHandler, input, ends);
    WriteLogs(s3, c, out, drains);
    var close := Close(s.conns[c].loop == 0);
    OneLog(s.conns[c].log, When(hup, [CloseHandler]), When(hup, close), When(err, [ErrorHandler]), When(input, [ReadHandler]),
           When(ends, close), When(out, [WriteHandler]));
    assert When(false, close) == [];
  }

  lemma OneLog(log: seq<Moment>, a: seq<Moment>, b: seq<Moment>, c: seq<Moment>, d: seq<Moment>, e: seq<Moment>, f: seq<Moment>)
    ensures log + a + b + c + [] + d + e + f == log + (a + b + c + d + e + f)
  {
  }

  lemma CountParts(a: seq<Moment>, b: seq<Moment>, c: seq<Moment>, d: seq<Moment>, e: seq<Moment>, f: seq<Moment>, m: Moment)
    ensures Count(a + b + c + d + e + f, m)
            == Count(a, m) + Count(b, m) + Count(c, m) + Count(d, m) + Count(e, m) + Count(f, m)
  {
  }

  lemma CountWhen(called: bool, k: Moment, m: Moment)
    ensures Count(When(called, [k]), m) == if called && m == k then 1 else 0
  {
  }

  lemma CountClose(called: bool, base: bool, m: Moment)
    requires m != Destroyed
    ensures Count(When(called, Close(base)), m) == if called && m == Down then 1 else 0
  {
  }

  /** Each handler is called exactly when its event is there, once, and every close reports DOWN. */
  lemma CountCalls(hup: bool, err: bool, input: bool, ends: bool, out: bool, base: bool, m: Moment)
    requires m != Destroyed
    ensures Count(Calls(hup, err, input, ends, out, base), m)
            == (if hup && m == CloseHandler then 1 else 0) + (if hup && m == Down then 1 else 0)
               + (if err && m == ErrorHandler then 1 else 0) + (if input && m == ReadHandler then 1 else 0)
               + (if ends && m == Down then 1 else 0) + (if out && m == WriteHandler then 1 else 0)
  {
    CountParts(When(hup, [CloseHandler]), When(hup, Close(base)), When(err, [ErrorHandler]), When(input, [ReadHandler]),
               When(ends, Close(base)), When(out, [WriteHandler]), m);
    CountWhen(hup, CloseHandler, m);
    CountClose(hup, base, m);
    CountWhen(err, ErrorHandler, m);
    CountWhen(input, ReadHandler, m);
    CountClose(ends, base, m);
    CountWhen(out, WriteHandler, m);
  }

  lemma InputBits(revents: Poller.Mask)
    ensures Reads(revents) <==> revents & Poller.EPOLLIN != 0 || revents & Poller.EPOLLPRI != 0
  {
  }

  /**
   For every mask, every read and whatever state the connection is in, an event calls the close
   handler exactly on a hang-up without input, the error handler exactly on EPOLLERR, the read
   handler exactly on EPOLLIN or EPOLLPRI and the write handler exactly on EPOLLOUT, each once and
   in this order; the connection goes down exactly by a close or a read that finds the end, and a
   write that drains the buffer leaves the write interest off.
   */
  lemma EventCallsHandlers<T>(cfg: Config, s: State<T>, c: T, revents: Poller.Mask, read: ReadResult, drains: bool)
    requires c in s.conns
    ensures var x, y := s.conns[c], WithEvent(cfg, s, c, revents, read, drains).conns[c];
            var hup := revents & Poller.EPOLLHUP != 0 && revents & Poller.EPOLLIN == 0;
            var input := revents & Poller.EPOLLIN != 0 || revents & Poller.EPOLLPRI != 0;
            var out := revents & Poller.EPOLLOUT != 0;
            var ends := input && read == Zero;
            && y.log == x.log + Calls(hup, revents & Poller.EPOLLERR != 0, input, ends, out, x.loop == 0)
            && (hup || ends ==> y.status == Connection.Disconnected && !y.chan.reading && !y.chan.writing)
            && (!hup && !ends ==> y.status == x.status && y.chan.reading == x.chan.reading
                                  && y.chan.writing == (x.chan.writing && !(out && drains)))
  {
    InputBits(revents);
    HandlersLog(cfg, s, c, HangsUp(revents), revents & Poller.EPOLLERR != 0, Reads(revents), Reads(revents) && read == Zero,
                revents & Poller.EPOLLOUT != 0, drains);
  }

  /** A send leaves the write interest on exactly when it was on or bytes are left, unless it gives up. */
  lemma SendTurnsOn<T>(cfg: Config, s: State<T>, c: T, leaves: bool)
    requires Enabled(s, SendInLoop(c, leaves))
    ensures var x, y := s.conns[c], Next(cfg, s, SendInLoop(c, leaves)).conns[c];
            && (y.chan.writing <==> x.chan.writing || (leaves && !(cfg.givesUp && x.status == Connection.Disconnected)))
            && (y.chan.writing && !x.chan.writing ==> y.chan.registered) && y == x.(chan := y.chan)
  {
  }

  /** A new connection belongs to the io loop it was given, is in the map, and is up at once only on the base loop. */
  lemma NewConnectionStarts<T>(cfg: Config, s: State<T>, c: T, io: nat)
    requires |cfg.ipPort| <= 21 && 0 < s.nextId && Enabled(s, NewConnection(c, io))
    ensures var t := Next(cfg, s, NewConnection(c, io));
            var name := cfg.name + ("-" + cfg.ipPort + "#") + LogStream.Text(s.nextId);
            && c in t.conns && t.nextId == s.nextId + 1 && t.conns[c].id == s.nextId && t.conns[c].loop == io
            && name in t.connections && t.connections[name] == c
            && t.conns[c].log == When(io == 0, [Up]) && (t.conns[c].chan.reading <==> io == 0)
            && t.queues == if io == 0 then s.queues else s.queues[io := s.queues[io] + [Establish(c)]]
  {
    NameParts(cfg, s.nextId);
  }

  /** The connection that a step is about. */
  ghost function Subject<T>(s: State<T>, a: Action<T>): Option<T>
    requires Enabled(s, a)
  {
    match a
    case NewConnection(c, _) => Some(c)
    case RunTask(l) => Some(s.queues[l][0].c)
    case Poll(_, _) => None
    case Dispatch(l, _, _, _) => Some(s.active[l][0])
    case SendInLoop(c, _) => Some(c)
    case StoreDisconnecting(c) => Some(c)
  }

  lemma PutLeaves<T>(cfg: Config, s: State<T>, c: T, d: T)
    requires c in s.conns && d in s.conns && d != c
    ensures forall m, called, closes :: d in CloseIf(cfg, s, c, m, called, closes).conns
                                        && CloseIf(cfg, s, c, m, called, closes).conns[d] == s.conns[d]
    ensures forall drains :: d in DrainIf(s, c, drains).conns && DrainIf(s, c, drains).conns[d] == s.conns[d]
  {
  }

  lemma EventLeaves<T>(cfg: Config, s: State<T>, c: T, revents: Poller.Mask, read: ReadResult, drains: bool, d: T)
    requires c in s.conns && d in s.conns && d != c
    ensures var t := WithEvent(cfg, s, c, revents, read, drains); d in t.conns && t.conns[d] == s.conns[d]
  {
    var s1 := CloseIf(cfg, s, c, CloseHandler, HangsUp(revents), HangsUp(revents));
    PutLeaves(cfg, s, c, d);
    var s2 := CloseIf(cfg, s1, c, ErrorHandler, revents & Poller.EPOLLERR != 0, false);
    PutLeaves(cfg, s1, c, d);
    var s3 := CloseIf(cfg, s2, c, ReadHandler, Reads(revents), Reads(revents) && read == Zero);
    PutLeaves(cfg, s2, c, d);
    PutLeaves(cfg, s3, c, d);
    PutLeaves(cfg, NoteIf(s3, c, WriteHandler, revents & Poller.EPOLLOUT != 0), c, d);
  }

  /** No step touches another connection. */
  lemma OthersUntouched<T>(cfg: Config, s: State<T>, a: Action<T>, d: T)
    requires Enabled(s, a) && d in s.conns && Subject(s, a) != Some(d)
    ensures var t := Next(cfg, s, a); d in t.conns && t.conns[d] == s.conns[d]
  {
    match a
    case Dispatch(l, revents, read, drains) =>
      EventLeaves(cfg, s.(active := s.active[l := s.active[l][1..]]), s.active[l][0], revents, read, drains, d);
    case _ =>
  }

  // ---- closing twice ----

  /** Tasks that the base loop runs, one after another. */
  ghost function RunBase<T>(cfg: Config, s: State<T>, n: nat): State<T>
    decreases n
  {
    if n == 0 then s else RunBase(cfg, Next(cfg, s, RunTask(0)), n - 1)
  }

  /** The base loop is between polls, and its tasks are about known connections. */
  ghost predicate BaseReady<T>(s: State<T>) {
    && 0 < |s.queues| == |s.active| && s.active[0] == []
    && forall i :: 0 <= i < |s.queues[0]| ==> s.queues[0][i].c in s.conns
  }

  lemma BaseStep<T>(cfg: Config, s: State<T>)
    requires BaseReady(s) && s.queues[0] != []
    ensures var t := Next(cfg, s, RunTask(0));
            && BaseReady(t) && t.queues[0] == s.queues[0][1..]
            && (forall c :: c in s.conns ==> c in t.conns && t.conns[c].id == s.conns[c].id)
            && (forall n :: n in t.connections ==> n in s.connections)
            && (t.asserted ==> s.asserted)
            && (s.queues[0][0].RemoveInLoop? ==>
                  var name := ConnName(cfg, s.conns[s.queues[0][0].c].id);
                  name !in t.connections && (t.asserted ==> name in s.connections))
  {
    assert Enabled(s, RunTask(0));
    var t := Next(cfg, s, RunTask(0));
    assert t.queues[0] == s.queues[0][1..];
    forall i | 0 <= i < |t.queues[0]| ensures t.queues[0][i].c in t.conns {
      assert t.queues[0][i] == s.queues[0][i + 1];
    }
  }

  lemma {:induction false} FailureStays<T>(cfg: Config, s: State<T>, n: nat)
    requires BaseReady(s) && n <= |s.queues[0]| && !s.asserted
    ensures !RunBase(cfg, s, n).asserted
    decreases n
  {
    if n > 0 {
      BaseStep(cfg, s);
      FailureStays(cfg, Next(cfg, s, RunTask(0)), n - 1);
    }
  }

  /** A removal queued for a connection that is no longer in the map makes the assertion fail. */
  lemma {:induction false} RemovalFails<T>(cfg: Config, s: State<T>, c: T, i: nat)
    requires BaseReady(s) && i < |s.queues[0]| && s.queues[0][i] == RemoveInLoop(c)
    requires ConnName(cfg, s.conns[c].id) !in s.connections
    ensures !RunBase(cfg, s, |s.queues[0]|).asserted
    decreases |s.queues[0]|
  {
    var t := Next(cfg, s, RunTask(0));
    BaseStep(cfg, s);
    if i == 0 {
      FailureStays(cfg, t, |t.queues[0]|);
    } else {
      RemovalFails(cfg, t, c, i - 1);
    }
  }

  lemma {:induction false} TwoRemovalsFail<T>(cfg: Config, s: State<T>, c: T, i: nat, j: nat)
    requires BaseReady(s) && i < j < |s.queues[0]|
    requires s.queues[0][i] == RemoveInLoop(c) && s.queues[0][j] == RemoveInLoop(c)
    ensures !RunBase(cfg, s, |s.queues[0]|).asserted
    decreases |s.queues[0]|
  {
    var t := Next(cfg, s, RunTask(0));
    BaseStep(cfg, s);
    if i == 0 {
      RemovalFails(cfg, t, c, j - 1);
    } else {
      TwoRemovalsFail(cfg, t, c, i - 1, j - 1);
    }
  }

  /** What a close does to everything but the record of its connection. */
  ghost predicate Closed<T>(cfg: Config, s: State<T>, t: State<T>, c: T)
    requires c in s.conns && |s.queues| > 0
  {
    var x, name := s.conns[c], ConnName(cfg, s.conns[c].id);
    && t.active == s.active && t.conns.Keys == s.conns.Keys
    && t.conns[c].loop == x.loop && t.conns[c].id == x.id
    && if x.loop == 0 then
         t.queues == s.queues && name !in t.connections && t.asserted == (s.asserted && name in s.connections)
       else
         t.queues == s.queues[0 := s.queues[0] + [RemoveInLoop(c)]] && t.connections == s.connections && t.asserted == s.asserted
  }

  lemma CloseCloses<T>(cfg: Config, s: State<T>, c: T, m: Moment)
    requires c in s.conns && |s.queues| > 0
    ensures Closed(cfg, s, CloseIf(cfg, s, c, m, true, true), c)
  {
  }

  lemma NoteFrame<T>(s: State<T>, c: T, m: Moment, called: bool)
    requires c in s.conns
    ensures var t := NoteIf(s, c, m, called);
            && t == s.(conns := t.conns) && t.conns.Keys == s.conns.Keys
            && t.conns[c].loop == s.conns[c].loop && t.conns[c].id == s.conns[c].id
  {
  }

  /** Two closes in a row, with any handlers called in between. */
  lemma TwoCloses<T>(cfg: Config, s: State<T>, c: T, revents: Poller.Mask, read: ReadResult, drains: bool)
    requires c in s.conns && |s.queues| > 0 && ClosesTwice(revents, read)
    ensures var t := WithEvent(cfg, s, c, revents, read, drains);
            && t.active == s.active && t.conns.Keys == s.conns.Keys
            && if s.conns[c].loop == 0 then t.queues == s.queues && !t.asserted
               else t.queues == s.queues[0 := s.queues[0] + [RemoveInLoop(c)] + [RemoveInLoop(c)]]
  {
    NotBoth(revents, read);
    var s1 := CloseIf(cfg, s, c, CloseHandler, true, true);
    CloseCloses(cfg, s, c, CloseHandler);
    var s2 := NoteIf(s1, c, ErrorHandler, revents & Poller.EPOLLERR != 0);
    NoteFrame(s1, c, ErrorHandler, revents & Poller.EPOLLERR != 0);
    var s3 := CloseIf(cfg, s2, c, ReadHandler, true, true);
    CloseCloses(cfg, s2, c, ReadHandler);
    NoteFrame(s3, c, WriteHandler, revents & Poller.EPOLLOUT != 0);
  }

  // ---- the exact condition ----

  /** Everything queued or waiting is about known connections. */
  ghost predicate Known<T>(s: State<T>) {
    && 0 < |s.queues| == |s.active|
    && (forall l, i :: 0 <= l < |s.queues| && 0 <= i < |s.queues[l]| ==> s.queues[l][i].c in s.conns)
    && (forall l, i :: 0 <= l < |s.active| && 0 <= i < |s.active[l]| ==> s.active[l][i] in s.conns)
  }

  lemma InvKnown<T>(cfg: Config, s: State<T>)
    requires Inv(cfg, s)
    ensures Known(s)
  {
    forall l, i | 0 <= l < |s.queues| && 0 <= i < |s.queues[l]| ensures s.queues[l][i].c in s.conns {
      assert TaskOk(s, l, s.queues[l][i]);
    }
  }

  lemma {:induction false} RunsCompose<T>(cfg: Config, s: State<T>, a: seq<Action<T>>, b: seq<Action<T>>)
    ensures ExecFrom(cfg, s, a + b) == ExecFrom(cfg, ExecFrom(cfg, s, a), b)
    ensures TameRun(cfg, s, a) && TameRun(cfg, ExecFrom(cfg, s, a), b) ==> TameRun(cfg, s, a + b)
    decreases |b|
  {
    if b == [] {
      assert a + b == a;
    } else {
      assert (a + b)[..|a + b| - 1] == a + b[..|b| - 1];
      RunsCompose(cfg, s, a, b[..|b| - 1]);
    }
  }

  lemma OneStep<T>(cfg: Config, s: State<T>, a: Action<T>)
    ensures ExecFrom(cfg, s, [a]) == Next(cfg, s, a)
    ensures TameRun(cfg, s, [a]) <==> Tame(cfg, s, a)
  {
    assert [a][..0] == [];
  }

  lemma {:induction false} BaseRun<T>(cfg: Config, s: State<T>, n: nat)
    ensures var run: seq<Action<T>> := seq(n, _ => RunTask(0));
            ExecFrom(cfg, s, run) == RunBase(cfg, s, n) && TameRun(cfg, s, run)
    decreases n
  {
    var run: seq<Action<T>> := seq(n, _ => RunTask(0));
    if n > 0 {
      var rest: seq<Action<T>> := seq(n - 1, _ => RunTask(0));
      assert run == [RunTask(0)] + rest;
      OneStep(cfg, s, RunTask(0));
      BaseRun(cfg, Next(cfg, s, RunTask(0)), n - 1);
      RunsCompose(cfg, s, [RunTask(0)], rest);
    }
  }

  lemma PassOne<T>(cfg: Config, s: State<T>)
    requires 0 < |s.active| && s.active[0] != [] && s.active[0][0] in s.conns
    ensures Next(cfg, s, Dispatch(0, 0, Bytes, false)) == s.(active := s.active[0 := s.active[0][1..]])
  {
    QuietEvent(cfg, s.(active := s.active[0 := s.active[0][1..]]), s.active[0][0]);
  }

  /** Events that call no handler take the base loop through its active channels. */
  lemma {:induction false} PassActive<T>(cfg: Config, s: State<T>, k: nat)
    requires Known(s) && k <= |s.active[0]|
    ensures var run: seq<Action<T>> := seq(k, _ => Dispatch(0, 0, Bytes, false));
            ExecFrom(cfg, s, run) == s.(active := s.active[0 := s.active[0][k..]]) && TameRun(cfg, s, run)
    decreases k
  {
    var run: seq<Action<T>> := seq(k, _ => Dispatch(0, 0, Bytes, false));
    if k > 0 {
      var a := s.active[0];
      PassActive(cfg, s, k - 1);
      assert run[..k - 1] == seq(k - 1, _ => Dispatch(0, 0, Bytes, false));
      var t := s.(active := s.active[0 := a[k - 1..]]);
      assert a[k - 1..][0] == a[k - 1] && a[k - 1..][1..] == a[k..];
      PassOne(cfg, t);
      assert t.active[0 := a[k..]] == s.active[0 := a[k..]];
      QuietEvent(cfg, s, a[k - 1]);
    } else {
      assert s.active[0 := s.active[0][0..]] == s.active;
    }
  }

  lemma QuietEvent<T>(cfg: Config, s: State<T>, c: T)
    requires c in s.conns
    ensures WithEvent(cfg, s, c, 0, Bytes, false) == s && !ClosesTwice(0, Bytes)
  {
    assert (0 as Poller.Mask) & Poller.EPOLLHUP == 0;
  }

  /** The assertion has failed or will: a removal is queued for a connection that will not be in the map. */
  ghost predicate Lost<T>(cfg: Config, s: State<T>, c: T, i: nat, j: nat)
    requires Known(s)
  {
    || !s.asserted
    || (i < |s.queues[0]| && s.queues[0][i] == RemoveInLoop(c) && ConnName(cfg, s.conns[c].id) !in s.connections)
    || (i < j < |s.queues[0]| && s.queues[0][i] == RemoveInLoop(c) && s.queues[0][j] == RemoveInLoop(c))
  }

  /** Then tame steps of the base loop alone make it fail. */
  lemma LostFails<T>(cfg: Config, s: State<T>, c: T, i: nat, j: nat) returns (more: seq<Action<T>>)
    requires Known(s) && Lost(cfg, s, c, i, j)
    ensures TameRun(cfg, s, more) && !ExecFrom(cfg, s, more).asserted
  {
    var pass: seq<Action<T>> := seq(|s.active[0]|, _ => Dispatch(0, 0, Bytes, false));
    var t := s.(active := s.active[0 := []]);
    PassActive(cfg, s, |s.active[0]|);
    assert s.active[0][|s.active[0]|..] == [];
    var n := |t.queues[0]|;
    var tasks: seq<Action<T>> := seq(n, _ => RunTask(0));
    BaseRun(cfg, t, n);
    if !t.asserted {
      FailureStays(cfg, t, n);
    } else if i < |s.queues[0]| && s.queues[0][i] == RemoveInLoop(c) && ConnName(cfg, s.conns[c].id) !in s.connections {
      RemovalFails(cfg, t, c, i);
    } else {
      TwoRemovalsFail(cfg, t, c, i, j);
    }
    RunsCompose(cfg, s, pass, tasks);
    more := pass + tasks;
  }

  lemma KnownAfter<T>(s: State<T>, t: State<T>)
    requires Known(s) && t.conns.Keys == s.conns.Keys && |t.active| == |s.active| && |t.queues| == |s.queues|
    requires forall l, i :: 0 <= l < |t.active| && 0 <= i < |t.active[l]| ==> t.active[l][i] in t.conns
    requires forall l :: 0 < l < |s.queues| ==> t.queues[l] == s.queues[l]
    requires s.queues[0] <= t.queues[0]
    requires forall i :: |s.queues[0]| <= i < |t.queues[0]| ==> t.queues[0][i].c in t.conns
    ensures Known(t)
  {
    forall l, i | 0 <= l < |t.queues| && 0 <= i < |t.queues[l]| ensures t.queues[l][i].c in t.conns {
      assert i < |s.queues[l]| ==> t.queues[l][i] == s.queues[l][i];
    }
  }

  lemma ClosingTwiceLoses<T>(cfg: Config, s: State<T>, c: T, revents: Poller.Mask, read: ReadResult, drains: bool)
    requires Known(s) && c in s.conns && ClosesTwice(revents, read)
    ensures var t := WithEvent(cfg, s, c, revents, read, drains);
            Known(t) && Lost(cfg, t, c, |s.queues[0]|, |s.queues[0]| + 1)
  {
    TwoCloses(cfg, s, c, revents, read, drains);
    KnownAfter(s, WithEvent(cfg, s, c, revents, read, drains));
  }

  /** The hang-up that the kernel reports on a channel that was added again. */
  lemma HangUpCloses<T>(cfg: Config, s: State<T>, c: T)
    requires c in s.conns && |s.queues| > 0
    ensures var t := WithEvent(cfg, s, c, Poller.EPOLLHUP, Bytes, false);
            Closed(cfg, s, t, c) && !ClosesTwice(Poller.EPOLLHUP, Bytes)
  {
    assert Poller.EPOLLHUP & Poller.EPOLLIN == 0 && Poller.EPOLLHUP & Poller.EPOLLPRI == 0;
    assert Poller.EPOLLHUP & (Poller.EPOLLIN | Poller.EPOLLPRI) == 0 && Poller.EPOLLHUP & Poller.EPOLLERR == 0;
    assert Poller.EPOLLHUP & Poller.EPOLLOUT == 0 && Poller.EPOLLHUP & Poller.EPOLLHUP != 0;
    CloseCloses(cfg, s, c, CloseHandler);
  }

  /** A hang-up of a connection that is out of the map, or has a removal queued already. */
  lemma HangUpLoses<T>(cfg: Config, s: State<T>, c: T, i: nat)
    requires Known(s) && c in s.conns
    requires || (s.conns[c].loop != 0 && i < |s.queues[0]| && s.queues[0][i] == RemoveInLoop(c))
             || (i == |s.queues[0]| && ConnName(cfg, s.conns[c].id) !in s.connections)
    ensures var t := WithEvent(cfg, s, c, Poller.EPOLLHUP, Bytes, false);
            Known(t) && Lost(cfg, t, c, i, |s.queues[0]|)
  {
    HangUpCloses(cfg, s, c);
    KnownAfter(s, WithEvent(cfg, s, c, Poller.EPOLLHUP, Bytes, false));
  }

  /** A closed connection whose channel is added again loses the assertion at the next hang-up. */
  lemma ReviveLoses<T>(cfg: Config, s: State<T>, c: T, chan: Chan) returns (i: nat, j: nat)
    requires |cfg.ipPort| <= 21 && Inv(cfg, s) && c in s.conns && s.conns[c].stage in {Closing, Removed, Gone}
    ensures var t := WithEvent(cfg, Put(s, c, s.conns[c].(chan := chan)), c, Poller.EPOLLHUP, Bytes, false);
            Known(t) && Lost(cfg, t, c, i, j)
  {
    InvKnown(cfg, s);
    assert ConnOk(s, c);
    i, j := |s.queues[0]|, |s.queues[0]|;
    if s.conns[c].stage == Closing {
      assert RemoveInLoop(c) in s.queues[0];
      i :| 0 <= i < |s.queues[0]| && s.queues[0][i] == RemoveInLoop(c);
    } else {
      MapHoldsIff(cfg, s, c);
    }
    HangUpLoses(cfg, Put(s, c, s.conns[c].(chan := chan)), c, i);
  }

  lemma PollThenHangUp<T>(cfg: Config, s: State<T>, c: T, l: nat)
    requires c in s.conns && s.conns[c].chan.registered && s.conns[c].loop == l && |s.queues| > 0
    requires l < |s.active| && s.active[l] == []
    ensures var run := [Poll(l, [c])] + [Dispatch(l, Poller.EPOLLHUP, Bytes, false)];
            && ExecFrom(cfg, s, run) == WithEvent(cfg, s, c, Poller.EPOLLHUP, Bytes, false) && TameRun(cfg, s, run)
  {
    var polled := s.(active := s.active[l := [c]]);
    var hup := Dispatch(l, Poller.EPOLLHUP, Bytes, false);
    assert polled.active[l][1..] == [] && s.active[l := [c]][l := []] == s.active;
    HangUpCloses(cfg, s, c);
    OneStep(cfg, s, Poll(l, [c]));
    OneStep(cfg, polled, hup);
    RunsCompose(cfg, s, [Poll(l, [c])], [hup]);
  }

  lemma RevivingFails<T>(cfg: Config, s: State<T>, c: T, leaves: bool) returns (more: seq<Action<T>>)
    requires |cfg.ipPort| <= 21 && Inv(cfg, s) && Enabled(s, SendInLoop(c, leaves)) && Revives(cfg, s, c, leaves)
    ensures var t := WithSend(cfg, s, c, leaves); TameRun(cfg, t, more) && !ExecFrom(cfg, t, more).asserted
  {
    assert ConnOk(s, c);
    var l, t := s.conns[c].loop, WithSend(cfg, s, c, leaves);
    var first := [Poll(l, [c])] + [Dispatch(l, Poller.EPOLLHUP, Bytes, false)];
    PollThenHangUp(cfg, t, c, l);
    var i, j := ReviveLoses(cfg, s, c, t.conns[c].chan);
    var rest := LostFails(cfg, ExecFrom(cfg, t, first), c, i, j);
    RunsCompose(cfg, t, first, rest);
    more := first + rest;
  }

  /** After a step that is not tame, tame steps alone can make the assertion fail. */
  lemma UntameFails<T>(cfg: Config, s: State<T>, a: Action<T>) returns (more: seq<Action<T>>)
    requires |cfg.ipPort| <= 21 && Inv(cfg, s) && Enabled(s, a) && !Tame(cfg, s, a)
    ensures TameRun(cfg, Next(cfg, s, a), more) && !ExecFrom(cfg, Next(cfg, s, a), more).asserted
  {
    if a.Dispatch? {
      var c, u := s.active[a.loop][0], s.(active := s.active[a.loop := s.active[a.loop][1..]]);
      PopActive(cfg, s, a.loop);
      InvKnown(cfg, u);
      ClosingTwiceLoses(cfg, u, c, a.revents, a.read, a.drains);
      more := LostFails(cfg, Next(cfg, s, a), c, |u.queues[0]|, |u.queues[0]| + 1);
    } else {
      more := RevivingFails(cfg, s, a.c, a.leaves);
    }
  }

  /**
   The condition is exact: after any step of a run that was tame so far, the assertion holds through
   every tame continuation if and only if the step was tame.
   */
  lemma AssertionHoldsIff<T(!new)>(cfg: Config, loops: nat, run: seq<Action<T>>, a: Action<T>)
    requires |cfg.ipPort| <= 21 && loops > 0 && TameRun(cfg, Start(loops), run)
    requires Enabled(Exec(cfg, loops, run), a)
    ensures var t := Next(cfg, Exec(cfg, loops, run), a);
            (forall more :: TameRun(cfg, t, more) ==> ExecFrom(cfg, t, more).asserted)
            <==> Tame(cfg, Exec(cfg, loops, run), a)
  {
    var s := Exec(cfg, loops, run);
    var t := Next(cfg, s, a);
    StartInv<T>(cfg, loops);
    RunsKeepInv(cfg, Start(loops), run);
    if Tame(cfg, s, a) {
      StepKeepsInv(cfg, s, a);
      forall more | TameRun(cfg, t, more) ensures ExecFrom(cfg, t, more).asserted {
        RunsKeepInv(cfg, t, more);
      }
    } else {
      var more := UntameFails(cfg, s, a);
    }
  }

  // ---- the objects ----

  class TcpConnection {
    /** Where the close callback leads. */
    const server: TcpServer
    const id: int
    const name: string
    const loop: nat
    var status: Connection.Status
    var chan: Chan
    ghost var stage: Stage
    ghost var log: seq<Moment>

    ghost function View(): Conn
      reads this
    {
      Conn.Conn(id, loop, status, chan, stage, log)
    }

    ghost predicate Valid()
      reads this, server, server.all
    {
      server.Valid() && this in server.all
    }

    constructor (server: TcpServer, id: int, name: string, loop: nat)
      ensures this.server == server && this.name == name
      ensures View() == Conn(id, loop, Connection.Connecting, UNUSED, Accepted, [])
    {
      this.server, this.id, this.name, this.loop := server, id, name, loop;
      status, chan, stage, log := Connection.Connecting, UNUSED, Accepted, [];
    }

    /** The fields change together; the stage and the log are history. */
    method Set(status: Connection.Status, chan: Chan, ghost stage: Stage, ghost log: seq<Moment>)
      requires Valid()
      modifies this
      ensures Valid() && View() == Conn.Conn(id, loop, status, chan, stage, log)
      ensures server.Abs() == Put(old(server.Abs()), this, View())
    {
      ghost var was := server.Abs().conns;
      this.status, this.chan, this.stage, this.log := status, chan, stage, log;
      assert server.Abs().conns == was[this := View()];
    }

    method ConnectEstablished()
      requires Valid()
      modifies this
      ensures Valid() && server.Abs() == WithEstablished(old(server.Abs()), this)
    {
      Set(Connection.Connected, Updated(chan.(reading := true)), Live, log + [Up]);
    }

    method ConnectDestroyed()
      requires Valid()
      modifies this
      ensures Valid() && server.Abs() == WithDestroyed(old(server.Abs()), this)
    {
      if status == Connection.Connected {
        Set(Connection.Disconnected, UNUSED, Gone, log + [Down] + [Destroyed]);
      } else {
        Set(status, chan.(registered := false), Gone, log + [Destroyed]);
      }
    }

    method HandleClose()
      requires Valid()
      modifies this, server
      ensures Valid() && server.all == old(server.all)
      ensures server.Abs() == WithClosed(server.cfg, old(server.Abs()), this)
    {
      Set(Connection.Disconnected, Updated(chan.(reading := false, writing := false)), Closing, log + [Down]);
      server.RemoveConnection(this);
    }

    method Called(m: Moment)
      requires Valid()
      modifies this`log
      ensures Valid() && server.Abs() == Note(old(server.Abs()), this, m)
    {
      log := log + [m];
    }

    /** handleWrite, as far as the interest goes: drains says whether the buffer is empty afterwards. */
    method HandleWrite(drains: bool)
      requires Valid()
      modifies this
      ensures Valid() && server.Abs() == DrainIf(Note(old(server.Abs()), this, WriteHandler), this, drains)
    {
      Called(WriteHandler);
      if chan.writing && drains {
        Set(status, Updated(chan.(writing := false)), stage, log);
      }
    }

    /** sendInLoop, as far as the interest goes: leaves says whether bytes go to the output buffer. */
    method SendInLoop(leaves: bool)
      requires Valid() && Enabled(server.Abs(), Action.SendInLoop(this, leaves))
      modifies this
      ensures Valid() && server.Abs() == Next(server.cfg, old(server.Abs()), Action.SendInLoop(this, leaves))
    {
      if server.cfg.givesUp && status == Connection.Disconnected {
        return;
      }
      if leaves && !chan.writing {
        Set(status, Updated(chan.(writing := true)), stage, log);
      }
    }

    /** handleEventWithGuard on the connection's channel; read is what its read call returns. */
    method HandleEventWithGuard(revents: Poller.Mask, read: ReadResult, drains: bool)
      requires Valid()
      modifies this, server
      ensures Valid() && server.all == old(server.all)
      ensures server.Abs() == WithEvent(server.cfg, old(server.Abs()), this, revents, read, drains)
    {
      if revents & Poller.EPOLLHUP != 0 && revents & Poller.EPOLLIN == 0 {
        Called(CloseHandler);
        HandleClose();
      }
      if revents & Poller.EPOLLERR != 0 {
        Called(ErrorHandler);
      }
      if revents & (Poller.EPOLLIN | Poller.EPOLLPRI) != 0 {
        Called(ReadHandler);
        if read == Zero {
          HandleClose();
        }
      }
      if revents & Poller.EPOLLOUT != 0 {
        HandleWrite(drains);
      }
    }

    /** The store in shutdown(), on any thread. */
    method StoreDisconnectingState()
      requires Valid() && Up in log
      modifies this
      ensures Valid() && server.Abs() == Next(server.cfg, old(server.Abs()), StoreDisconnecting(this))
    {
      Set(Connection.Disconnecting, chan, stage, log);
    }
  }

  /** The server with the loops it uses: their queues of tasks and their active channels. */
  class TcpServer {
    const cfg: Config
    var nextConnId: int
    var connections: map<string, TcpConnection>
    var queues: seq<seq<Task<TcpConnection>>>
    var active: seq<seq<TcpConnection>>
    ghost var all: set<TcpConnection>
    ghost var asserted: bool

    ghost predicate Valid()
      reads this, all
    {
      && |queues| == |active| && |queues| > 0
      && forall c :: c in all ==> c.server == this && c.name == ConnName(cfg, c.id)
    }

    ghost function Abs(): State<TcpConnection>
      reads this, all
    {
      State.State(nextConnId, map c | c in all :: c.View(), connections, queues, active, asserted)
    }

    constructor (cfg: Config, loops: nat)
      requires loops > 0
      ensures Valid() && this.cfg == cfg && Abs() == Start(loops)
    {
      this.cfg := cfg;
      nextConnId, connections := 1, map[];
      queues, active := seq(loops, _ => []), seq(loops, _ => []);
      all, asserted := {}, true;
    }

    method NewConnection(io: nat) returns (conn: TcpConnection)
      requires Valid() && io < |queues| && nextConnId <= MAX_INT
      modifies this
      ensures Valid() && fresh(conn) && all == old(all) + {conn}
      ensures Abs() == Next(cfg, old(Abs()), Action.NewConnection(conn, io))
    {
      conn := AddConnection(io);
      if io == 0 {
        conn.ConnectEstablished();
      } else {
        QueueInLoop(io, Task.Establish(conn));
      }
    }

    method AddConnection(io: nat) returns (conn: TcpConnection)
      requires Valid() && io < |queues|
      modifies this
      ensures Valid() && fresh(conn) && conn in all && all == old(all) + {conn} && |queues| == |old(queues)|
      ensures Abs() == Entered(cfg, old(Abs()), conn, io)
    {
      var connName := ConnName(cfg, nextConnId);
      conn := new TcpConnection(this, nextConnId, connName, io);
      nextConnId := nextConnId + 1;
      connections := connections[connName := conn];
      all := all + {conn};
    }

    method QueueInLoop(loop: nat, t: Task<TcpConnection>)
      requires Valid()
      modifies this`queues
      ensures Valid() && Abs() == WithQueued(old(Abs()), loop, t)
    {
      if loop < |queues| {
        queues := queues[loop := queues[loop] + [t]];
      }
    }

    /** On the thread of the connection's loop. */
    method RemoveConnection(conn: TcpConnection)
      requires Valid() && conn in all
      modifies this, conn
      ensures Valid() && all == old(all)
      ensures Abs() == if conn.loop == 0 then WithRemoved(cfg, old(Abs()), conn)
                       else WithQueued(old(Abs()), 0, RemoveInLoop(conn))
    {
      if conn.loop == 0 {
        RemoveConnectionInLoop(conn);
      } else {
        QueueInLoop(0, RemoveInLoop(conn));
      }
    }

    method RemoveConnectionInLoop(conn: TcpConnection)
      requires Valid() && conn in all
      modifies this, conn
      ensures Valid() && all == old(all)
      ensures Abs() == WithRemoved(cfg, old(Abs()), conn)
    {
      Erase(conn);
      conn.Set(conn.status, conn.chan, Removed, conn.log);
      if conn.loop == 0 {
        conn.ConnectDestroyed();
      } else {
        QueueInLoop(conn.loop, DestroyConn(conn));
      }
    }

    /** The erase, with the assertion on its result. */
    method Erase(conn: TcpConnection)
      requires Valid() && conn in all
      modifies this`connections, this`asserted
      ensures Valid()
      ensures var name := ConnName(cfg, conn.id);
              Abs() == old(Abs()).(connections := old(connections) - {name},
                                   asserted := old(asserted) && name in old(connections))
    {
      ghost var was := Abs().conns;
      var n := if conn.name in connections then 1 else 0;
      connections := connections - {conn.name};
      asserted := asserted && n == 1;
      assert Abs().conns == was;
    }

    /** A loop runs the next of its pending tasks. */
    method RunPending(loop: nat)
      requires Valid() && Enabled(Abs(), RunTask(loop))
      modifies this, all
      ensures Valid() && all == old(all)
      ensures Abs() == Next(cfg, old(Abs()), RunTask(loop))
    {
      var task := PopTask(loop);
      RunNow(task);
    }

    method PopTask(loop: nat) returns (task: Task<TcpConnection>)
      requires Valid() && loop < |queues| && queues[loop] != []
      modifies this`queues
      ensures Valid() && task == old(queues[loop][0])
      ensures Abs() == old(Abs()).(queues := old(queues)[loop := old(queues)[loop][1..]])
    {
      task := queues[loop][0];
      queues := queues[loop := queues[loop][1..]];
    }

    method RunNow(task: Task<TcpConnection>)
      requires Valid() && task.c in all
      modifies this, task.c
      ensures Valid() && all == old(all)
      ensures Abs() == RunHead(cfg, old(Abs()), task)
    {
      match task
      case Establish(c) => c.ConnectEstablished();
      case RemoveInLoop(c) => RemoveConnectionInLoop(c);
      case DestroyConn(c) => c.ConnectDestroyed();
    }

    method PollReturns(loop: nat, ready: seq<TcpConnection>)
      requires Valid() && Enabled(Abs(), Poll(loop, ready))
      modifies this`active
      ensures Valid() && Abs() == Next(cfg, old(Abs()), Poll(loop, ready))
    {
      active := active[loop := ready];
    }

    method PopActive(loop: nat) returns (c: TcpConnection)
      requires Valid() && loop < |active| && active[loop] != []
      modifies this`active
      ensures Valid() && c == old(active[loop][0])
      ensures Abs() == old(Abs()).(active := old(active)[loop := old(active)[loop][1..]])
    {
      c := active[loop][0];
      active := active[loop := active[loop][1..]];
    }

    /** A loop handles the next of its active channels. */
    method HandleActive(loop: nat, revents: Poller.Mask, read: ReadResult, drains: bool)
      requires Valid() && Enabled(Abs(), Dispatch(loop, revents, read, drains))
      modifies this, all
      ensures Valid() && all == old(all)
      ensures Abs() == Next(cfg, old(Abs()), Dispatch(loop, revents, read, drains))
    {
      var c := PopActive(loop);
      c.HandleEventWithGuard(revents, read, drains);
    }
  }
}
