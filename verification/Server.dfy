/** The asynchronous server as a transition system: four threads, a reader/writer lock over the session
    map, one mutex per session, and two completion queues that hand back each started operation at most
    once, in any order, with any outcome. */
module Server {
  import opened Tags
  import opened Sessions

  datatype Thread = Accepter | Worker | Broadcaster | Stopper

  /** Who holds an exclusive lock. */
  datatype Holder = Nobody | By(thread: Thread)

  /** An operation in the hands of the library: the session object that started it, and its event. */
  datatype Op = Op(owner: nat, event: Event)

  // The tag that the owner attached; session ids are counted on 64 bits.
  function TagOf(op: Op): nat {
    Tagify(op.owner % WORD, op.event)
  }

  /** What `GetSession` returns. */
  datatype Found = Missing | Object(k: nat)

  /** Where the accepter or the worker stands. `op` is the completion being handled, `k` the session
      object that its tag was resolved to. */
  datatype Pc =
    | LoopCheck
    | AddLock | AddIssue | AddInsert | AddUnlock
    | Poll
    | GetLock(op: Op, ok: bool) | GetFind(op: Op, ok: bool) | GetUnlock(op: Op, ok: bool, found: Found)
    | RemoveLock(op: Op) | RemoveErase(op: Op) | RemoveUnlock
    | SessionLock(op: Op, k: nat) | Process(op: Op, k: nat) | ProcessRest(op: Op, k: nat)
    | SessionUnlock(op: Op, k: nat)
    | AssertFailed
    | Exit

  /** Where the broadcaster stands; `todo` are the map entries still to visit in this round. */
  datatype CastPc =
    | CastCheck | CastLock | CastRecheck
    | CastScan(todo: set<nat>)
    | CastSessionLock(todo: set<nat>, k: nat) | CastSend(todo: set<nat>, k: nat)
    | CastSessionUnlock(todo: set<nat>, k: nat)
    | CastUnlock(quit: bool)
    | CastExit

  /** Where `Stop` stands. */
  datatype StopPc =
    | StopCheck | StopClear | StopLock
    | StopScan(todo: set<nat>)
    | StopSessionLock(todo: set<nat>, k: nat) | StopCancel(todo: set<nat>, k: nat)
    | StopSessionUnlock(todo: set<nat>, k: nat)
    | StopUnlock | StopServer | StopConn | StopReadWrite
    | StopExit

  /** The broadcast round under way: how many copies each session of the map had taken on when the round
      started, and, for each session visited, whether it was connected at that moment. */
  datatype Round = Round(base: map<nat, nat>, visited: map<nat, bool>)

  datatype State = State(
    running: bool, connShut: bool, readWriteShut: bool,
    readers: set<Thread>, writer: Holder, // mutex_sessions_
    heap: seq<Session>,                           // every session object made, oldest first
    mutexes: seq<Holder>,                 // the mutex_ of each of them
    table: map<nat, nat>,                         // sessions_: from session id to session object
    conn: multiset<Op>, readWrite: multiset<Op>,  // cq_conn_, cq_readwrite_
    acc: Pc, wrk: Pc, cast: CastPc, stop: StopPc,
    round: Round)

  // The server right after `Start`.
  const INITIAL := State(true, false, false, {}, Nobody, [], [], map[], multiset{}, multiset{},
                         LoopCheck, LoopCheck, CastCheck, StopCheck, Round(map[], map[]))

  /** What the environment decides at a step: which completion a queue delivers and how it ended, or that
      the queue was shut down, or nothing. */
  datatype Choice = Deliver(op: Op, ok: bool, name: string) | Closed | Go

  datatype Action = Accept(c: Choice) | Work(c: Choice) | Cast(id: nat) | Halt(id: nat)

  // ----- locks

  predicate CanRead(s: State) {
    s.writer.Nobody?
  }

  predicate CanWrite(s: State) {
    s.writer.Nobody? && s.readers == {}
  }

  predicate Free(s: State, k: nat) {
    k < |s.mutexes| ==> s.mutexes[k].Nobody?
  }

  function SetMutex(s: State, k: nat, holder: Holder): State {
    s.(mutexes := if k < |s.mutexes| then s.mutexes[k := holder] else s.mutexes)
  }

  // ----- sessions

  // The session object `k` becomes `update.0`, and the operation it started, if any, is under way.
  function Apply(s: State, k: nat, update: (Session, Effect)): State {
    var heap := if k < |s.heap| then s.heap[k := update.0] else s.heap;
    var ops := match update.1 {
      case Silent => multiset{}
      case StartRead => multiset{Op(k, ReadDone)}
      case StartWrite => multiset{Op(k, WriteDone)}
    };
    s.(heap := heap, readWrite := s.readWrite + ops)
  }

  function At(s: State, k: nat): Session {
    if k < |s.heap| then s.heap[k] else NEW_SESSION
  }

  // ----- accepter and worker

  function PcOf(s: State, t: Thread): Pc {
    if t.Accepter? then s.acc else s.wrk
  }

  function Goto(s: State, t: Thread, pc: Pc): State {
    s.(acc := if t.Accepter? then pc else s.acc, wrk := if t.Accepter? then s.wrk else pc)
  }

  predicate Adding(pc: Pc) {
    pc.AddLock? || pc.AddIssue? || pc.AddInsert? || pc.AddUnlock?
  }

  predicate Getting(pc: Pc) {
    pc.GetLock? || pc.GetFind? || pc.GetUnlock?
  }

  predicate Removing(pc: Pc) {
    pc.RemoveLock? || pc.RemoveErase? || pc.RemoveUnlock?
  }

  predicate Processing(pc: Pc) {
    pc.SessionLock? || pc.Process? || pc.ProcessRest? || pc.SessionUnlock?
  }

  // AddNewSession: the request for a connection is under way before the session is in the map.
  function AddNewSession(s: State, t: Thread): State {
    match PcOf(s, t)
    case AddLock => Goto(s.(writer := By(t)), t, AddIssue)
    case AddIssue =>
      Goto(s.(heap := s.heap + [NEW_SESSION], mutexes := s.mutexes + [Nobody],
              conn := s.conn + multiset{Op(|s.heap|, Connected)}), t, AddInsert)
    case AddInsert =>
      Goto(s.(table := if s.heap == [] then s.table else s.table[(|s.heap| - 1) % WORD := |s.heap| - 1]),
           t, AddUnlock)
    case _ => Goto(s.(writer := Nobody), t, Poll)
  }

  // The queue hands out `op`. A read that went well has left its message in the owner's request slot.
  function Delivered(s: State, t: Thread, op: Op, ok: bool, name: string): State {
    s.(conn := if t.Accepter? then s.conn - multiset{op} else s.conn,
       readWrite := if t.Accepter? then s.readWrite else s.readWrite - multiset{op},
       heap := if op.event.ReadDone? && ok && op.owner < |s.heap|
               then s.heap[op.owner := Receive(s.heap[op.owner], name)] else s.heap)
  }

  // The outer loop test and the wait for a completion.
  function Await(s: State, t: Thread, c: Choice): State {
    match PcOf(s, t)
    case LoopCheck => Goto(s, t, if !s.running then Exit else if t.Accepter? then AddLock else Poll)
    case _ =>
      match c
      case Deliver(op, ok, name) => Goto(Delivered(s, t, op, ok, name), t, GetLock(op, ok))
      case _ => Goto(s, t, LoopCheck)
  }

  function Lookup(table: map<nat, nat>, id: nat): Found {
    if id in table then Object(table[id]) else Missing
  }

  // The event that each thread asserts before it lets a session process it.
  predicate Expected(t: Thread, e: Event) {
    if t.Accepter? then e.Connected? else e.ReadDone? || e.WriteDone?
  }

  function AfterGet(t: Thread, op: Op, ok: bool, found: Found): Pc {
    if found.Missing? then Poll
    else if !ok then RemoveLock(op)
    else if Expected(t, Detagify(TagOf(op)).1) then SessionLock(op, found.k)
    else AssertFailed
  }

  function GetSession(s: State, t: Thread): State {
    match PcOf(s, t)
    case GetLock(op, ok) => Goto(s.(readers := s.readers + {t}), t, GetFind(op, ok))
    case GetFind(op, ok) => Goto(s, t, GetUnlock(op, ok, Lookup(s.table, Detagify(TagOf(op)).0)))
    case GetUnlock(op, ok, found) => Goto(s.(readers := s.readers - {t}), t, AfterGet(t, op, ok, found))
    case _ => s
  }

  function RemoveSession(s: State, t: Thread): State {
    match PcOf(s, t)
    case RemoveLock(op) => Goto(s.(writer := By(t)), t, RemoveErase(op))
    case RemoveErase(op) => Goto(s.(table := s.table - {Detagify(TagOf(op)).0}), t, RemoveUnlock)
    case _ => Goto(s.(writer := Nobody), t, Poll)
  }

  function ProcessEvent(s: State, t: Thread): State {
    match PcOf(s, t)
    case SessionLock(op, k) => Goto(SetMutex(s, k, By(t)), t, Process(op, k))
    case Process(op, k) =>
      var e := Detagify(TagOf(op)).1;
      Goto(Apply(s, k, FirstHalf(At(s, k), e)), t,
           if HasSecondHalf(e) then ProcessRest(op, k) else SessionUnlock(op, k))
    case ProcessRest(op, k) =>
      var e := Detagify(TagOf(op)).1;
      Goto(Apply(s, k, if HasSecondHalf(e) then SecondHalf(At(s, k), e) else (At(s, k), Silent)), t,
           SessionUnlock(op, k))
    case SessionUnlock(op, k) => Goto(SetMutex(s, k, Nobody), t, if t.Accepter? then AddLock else Poll)
    case _ => s
  }

  predicate HandlerEnabled(s: State, t: Thread, c: Choice) {
    match PcOf(s, t)
    case Poll =>
      if t.Accepter? then (c.Deliver? && c.op in s.conn) || (c.Closed? && s.connShut)
      else (c.Deliver? && c.op in s.readWrite) || (c.Closed? && s.readWriteShut)
    case AddLock => c.Go? && CanWrite(s)
    case RemoveLock(_) => c.Go? && CanWrite(s)
    case GetLock(_, _) => c.Go? && CanRead(s)
    case SessionLock(_, k) => c.Go? && Free(s, k)
    case AssertFailed => false
    case Exit => false
    case _ => c.Go?
  }

  function HandlerStep(s: State, t: Thread, c: Choice): State {
    var pc := PcOf(s, t);
    if Adding(pc) then AddNewSession(s, t)
    else if Getting(pc) then GetSession(s, t)
    else if Removing(pc) then RemoveSession(s, t)
    else if Processing(pc) then ProcessEvent(s, t)
    else Await(s, t, c)
  }

  // ----- broadcaster

  predicate CastEnabled(s: State, id: nat) {
    match s.cast
    case CastLock => CanRead(s)
    case CastScan(todo) => todo == {} || (id in todo && id in s.table)
    case CastSessionLock(_, k) => Free(s, k)
    case CastExit => false
    case _ => true
  }

  function CopiesOf(s: State, id: nat): nat {
    if id in s.table then Copies(At(s, s.table[id]).log.accepted) else 0
  }

  function CastStep(s: State, id: nat): State
    requires CastEnabled(s, id)
  {
    match s.cast
    case CastCheck => s.(cast := if s.running then CastLock else CastExit)
    case CastLock => s.(readers := s.readers + {Broadcaster}, cast := CastRecheck)
    case CastRecheck =>
      if !s.running then s.(cast := CastUnlock(true))
      else s.(cast := CastScan(s.table.Keys),
              round := Round(map i | i in s.table :: CopiesOf(s, i), map[]))
    case CastScan(todo) =>
      if todo == {} then s.(cast := CastUnlock(false))
      else s.(cast := CastSessionLock(todo - {id}, s.table[id]))
    case CastSessionLock(todo, k) => SetMutex(s, k, By(Broadcaster)).(cast := CastSend(todo, k))
    case CastSend(todo, k) =>
      var connected := !At(s, k).status.WaitToConnect?;
      Apply(s, k, SendResponse(At(s, k), Broadcast))
        .(cast := CastSessionUnlock(todo, k), round := s.round.(visited := s.round.visited[k := connected]))
    case CastSessionUnlock(todo, k) => SetMutex(s, k, Nobody).(cast := CastScan(todo))
    case CastUnlock(quit) =>
      s.(readers := s.readers - {Broadcaster}, cast := if quit then CastExit else CastCheck)
    case CastExit => s
  }

  // ----- Stop

  predicate StopEnabled(s: State, id: nat) {
    match s.stop
    case StopLock => CanWrite(s)
    case StopScan(todo) => todo == {} || (id in todo && id in s.table)
    case StopSessionLock(_, k) => Free(s, k)
    case StopExit => false
    case _ => true
  }

  function StopStep(s: State, id: nat): State
    requires StopEnabled(s, id)
  {
    match s.stop
    case StopCheck => s.(stop := if s.running then StopClear else StopExit)
    case StopClear => s.(running := false, stop := StopLock)
    case StopLock => s.(writer := By(Stopper), stop := StopScan(s.table.Keys))
    case StopScan(todo) =>
      if todo == {} then s.(stop := StopUnlock)
      else s.(stop := StopSessionLock(todo - {id}, s.table[id]))
    case StopSessionLock(todo, k) => SetMutex(s, k, By(Stopper)).(stop := StopCancel(todo, k))
    case StopCancel(todo, k) => s.(stop := StopSessionUnlock(todo, k)) // TryCancel is up to the library
    case StopSessionUnlock(todo, k) => SetMutex(s, k, Nobody).(stop := StopScan(todo))
    case StopUnlock => s.(writer := Nobody, stop := StopServer)
    case StopServer => s.(stop := StopConn)
    case StopConn => s.(connShut := true, stop := StopReadWrite)
    case StopReadWrite => s.(readWriteShut := true, stop := StopExit)
    case StopExit => s
  }

  // ----- the whole server

  predicate Enabled(s: State, a: Action) {
    match a
    case Accept(c) => HandlerEnabled(s, Accepter, c)
    case Work(c) => HandlerEnabled(s, Worker, c)
    case Cast(id) => CastEnabled(s, id)
    case Halt(id) => StopEnabled(s, id)
  }

  function Step(s: State, a: Action): State
    requires Enabled(s, a)
  {
    match a
    case Accept(c) => HandlerStep(s, Accepter, c)
    case Work(c) => HandlerStep(s, Worker, c)
    case Cast(id) => CastStep(s, id)
    case Halt(id) => StopStep(s, id)
  }

  /** The actions `run` can be taken one after the other from `s`, and lead to `t`. */
  predicate Leads(s: State, run: seq<Action>, t: State)
    decreases |run|
  {
    if run == [] then s == t
    else Enabled(s, run[0]) && Leads(Step(s, run[0]), run[1..], t)
  }
}
