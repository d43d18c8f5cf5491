/** The invariant of the asynchronous server. */
module ServerInvariant {
  import opened Tags
  import opened Sessions
  import opened Server

  // ----- who holds which lock, read off the program counters

  datatype Hold = Nothing | Shared | Exclusive

  function HandlerHold(pc: Pc): Hold {
    if pc.GetFind? || pc.GetUnlock? then Shared
    else if pc.AddIssue? || pc.AddInsert? || pc.AddUnlock? || pc.RemoveErase? || pc.RemoveUnlock? then Exclusive
    else Nothing
  }

  function CastHold(pc: CastPc): Hold {
    if pc.CastCheck? || pc.CastLock? || pc.CastExit? then Nothing else Shared
  }

  function StopHold(pc: StopPc): Hold {
    if pc.StopScan? || pc.StopSessionLock? || pc.StopCancel? || pc.StopSessionUnlock? || pc.StopUnlock?
    then Exclusive else Nothing
  }

  predicate HoldsMatch(readers: set<Thread>, writer: Holder, a: Hold, w: Hold, c: Hold, p: Hold) {
    && (Accepter in readers <==> a == Shared) && (writer == By(Accepter) <==> a == Exclusive)
    && (Worker in readers <==> w == Shared) && (writer == By(Worker) <==> w == Exclusive)
    && (Broadcaster in readers <==> c == Shared) && (writer == By(Broadcaster) <==> c == Exclusive)
    && (Stopper in readers <==> p == Shared) && (writer == By(Stopper) <==> p == Exclusive)
    && (!writer.Nobody? ==> readers == {})
  }

  /** The reader/writer lock is held by exactly the threads inside a section it guards, and a writer is alone. */
  predicate LocksMatch(s: State) {
    HoldsMatch(s.readers, s.writer, HandlerHold(s.acc), HandlerHold(s.wrk), CastHold(s.cast), StopHold(s.stop))
  }

  predicate HandlerMutex(pc: Pc, k: nat) {
    (pc.Process? || pc.ProcessRest? || pc.SessionUnlock?) && pc.k == k
  }

  predicate CastMutex(pc: CastPc, k: nat) {
    (pc.CastSend? || pc.CastSessionUnlock?) && pc.k == k
  }

  predicate StopMutex(pc: StopPc, k: nat) {
    (pc.StopCancel? || pc.StopSessionUnlock?) && pc.k == k
  }

  predicate HeldBy(holder: Holder, a: bool, w: bool, c: bool, p: bool) {
    && (holder == By(Accepter) <==> a) && (holder == By(Worker) <==> w)
    && (holder == By(Broadcaster) <==> c) && (holder == By(Stopper) <==> p)
  }

  /** The mutex of session `k` is held by exactly the thread inside the section it guards. */
  predicate MutexMatches(s: State, k: nat)
    requires k < |s.mutexes|
  {
    HeldBy(s.mutexes[k], HandlerMutex(s.acc, k), HandlerMutex(s.wrk, k), CastMutex(s.cast, k), StopMutex(s.stop, k))
  }

  // ----- operations started and not yet processed

  // A thread has taken the completion `op` from its queue and has not acted upon it yet.
  predicate Busy(pc: Pc) {
    pc.GetLock? || pc.GetFind? || pc.GetUnlock? || pc.RemoveLock? || pc.RemoveErase? || pc.SessionLock?
    || pc.Process?
  }

  predicate InHand(pc: Pc, op: Op) {
    Busy(pc) && pc.op == op
  }

  function Outstanding(queue: multiset<Op>, pc: Pc, op: Op): nat {
    queue[op] + if InHand(pc, op) then 1 else 0
  }

  function Accepts(s: State, k: nat): nat {
    Outstanding(s.conn, s.acc, Op(k, Connected))
  }

  function Reads(s: State, k: nat): nat {
    Outstanding(s.readWrite, s.wrk, Op(k, ReadDone))
  }

  function Writes(s: State, k: nat): nat {
    Outstanding(s.readWrite, s.wrk, Op(k, WriteDone))
  }

  // The worker has a message of session `k` at hand that it may still answer.
  predicate ToAnswer(s: State, k: nat) {
    InHand(s.wrk, Op(k, ReadDone)) && match s.wrk {
      case GetLock(_, ok) => ok
      case GetFind(_, ok) => ok
      case GetUnlock(_, ok, _) => ok
      case SessionLock(_, _) => true
      case Process(_, _) => true
      case _ => false
    }
  }

  // ----- the invariant

  predicate FlagsOk(s: State) {
    && (s.connShut || s.readWriteShut ==> !s.running)
    && (!s.stop.StopCheck? && !s.stop.StopClear? ==> !s.running)
  }

  predicate TableOk(s: State) {
    && |s.mutexes| == |s.heap|
    && (forall id :: id in s.table ==> s.table[id] == id && id < |s.heap|)
    && (s.acc.AddInsert? ==> s.heap != [] && |s.heap| - 1 !in s.table)
    && (s.acc.LoopCheck? && s.running ==> s.heap == [])
  }

  predicate QueuesOk(s: State) {
    && (forall op :: op in s.conn ==> op.event.Connected? && op.owner < |s.heap|)
    && (forall op :: op in s.readWrite ==> (op.event.ReadDone? || op.event.WriteDone?) && op.owner < |s.heap|)
  }

  predicate AccepterOk(s: State) {
    && !s.acc.AssertFailed?
    && (Busy(s.acc) ==> s.acc.op.event.Connected? && s.acc.op.owner < |s.heap|)
    && (s.acc.GetUnlock? ==> s.acc.found == Object(s.acc.op.owner))
    && (s.acc.SessionLock? || s.acc.Process? || s.acc.ProcessRest? || s.acc.SessionUnlock?
        ==> s.acc.op == Op(s.acc.k, Connected) && s.acc.k < |s.heap|)
    && (s.acc.ProcessRest? ==> s.acc.k == |s.heap| - 1 && s.heap[s.acc.k].status.WaitToConnect?)
  }

  predicate WorkerOk(s: State) {
    && !s.wrk.AssertFailed? && !s.wrk.AddLock? && !s.wrk.AddIssue? && !s.wrk.AddInsert? && !s.wrk.AddUnlock?
    && (Busy(s.wrk) ==>
          (s.wrk.op.event.ReadDone? || s.wrk.op.event.WriteDone?) && s.wrk.op.owner < |s.heap|)
    && (s.wrk.GetUnlock? ==> s.wrk.found == if s.wrk.op.owner in s.table then Object(s.wrk.op.owner) else Missing)
    && (s.wrk.RemoveLock? || s.wrk.RemoveErase? ==> s.wrk.op.owner in s.table)
    && (s.wrk.SessionLock? || s.wrk.Process? || s.wrk.ProcessRest? ==>
          s.wrk.k == s.wrk.op.owner && s.wrk.k in s.table)
    && (s.wrk.ProcessRest? ==> s.wrk.op.event.ReadDone? && !At(s, s.wrk.k).status.WaitToConnect?)
    && (s.wrk.SessionUnlock? ==> s.wrk.k < |s.heap|)
  }

  /** The accepter is about to make a new session. */
  predicate AboutToAdd(s: State) {
    s.acc.AddLock? || s.acc.AddIssue? || s.acc.SessionUnlock? || (s.acc.LoopCheck? && s.running)
  }

  predicate HistoryOk(s: State, k: nat)
    requires k < |s.heap|
  {
    var log := s.heap[k].log;
    && (log.received == log.answered || log.received == log.answered + [s.heap[k].request])
    && (ToAnswer(s, k) ==> log.received == log.answered + [s.heap[k].request])
    && (k in s.table && !ToAnswer(s, k) ==> log.received == log.answered)
    && (Op(k, ReadDone) in s.readWrite || Accepts(s, k) == 1 ==> log.received == log.answered)
  }

  predicate SessionOk(s: State, k: nat)
    requires k < |s.heap|
  {
    var x := s.heap[k];
    && Balanced(x)
    && Accepts(s, k) <= 1 && Reads(s, k) <= 1 && Writes(s, k) <= 1
    && (!x.status.WaitWriteDone? ==> Writes(s, k) == 0)
    && (x.status.WaitWriteDone? && k in s.table ==> Writes(s, k) == 1)
    && (Accepts(s, k) == 1 ==>
          && x.status.WaitToConnect? && Reads(s, k) == 0 && k == |s.heap| - 1
          && (k in s.table || s.acc.AddInsert?))
    && (x.status.WaitToConnect? && (k in s.table || Reads(s, k) == 1) && Accepts(s, k) == 0 ==>
          s.acc.ProcessRest? && s.acc.k == k)
    && (x.status.WaitToConnect? && k in s.table ==> k == |s.heap| - 1 && !AboutToAdd(s))
    && (s.wrk.ProcessRest? && s.wrk.k == k ==> Reads(s, k) == 0)
    && (s.acc.ProcessRest? && s.acc.k == k ==> Accepts(s, k) == 0)
    && (s.acc.AddInsert? && k == |s.heap| - 1 ==> Accepts(s, k) == 1)
  }

  predicate CopyKept(s: State, id: nat)
    requires id in s.round.base
  {
    Copies(At(s, id).log.accepted)
      == s.round.base[id] + if id in s.round.visited && s.round.visited[id] then 1 else 0
  }

  /** The round has visited all of the map but `rest`; each session visited while connected has taken on one
      more copy than at the start of the round, every other one none. */
  predicate RoundKept(s: State, rest: set<nat>) {
    && s.round.base.Keys == s.table.Keys
    && rest <= s.table.Keys
    && s.round.visited.Keys == s.table.Keys - rest
    && (forall id :: id in s.table ==> CopyKept(s, id))
  }

  predicate RoundOk(s: State) {
    match s.cast
    case CastScan(todo) => RoundKept(s, todo)
    case CastSessionLock(todo, k) => k !in todo && RoundKept(s, todo + {k})
    case CastSend(todo, k) => k !in todo && RoundKept(s, todo + {k})
    case CastSessionUnlock(todo, k) => k in s.table && RoundKept(s, todo)
    case CastUnlock(quit) => quit || RoundKept(s, {})
    case _ => true
  }

  predicate StopOk(s: State) {
    match s.stop
    case StopScan(todo) => todo <= s.table.Keys
    case StopSessionLock(todo, k) => k in s.table && todo <= s.table.Keys
    case StopCancel(todo, k) => k in s.table && todo <= s.table.Keys
    case StopSessionUnlock(todo, k) => k in s.table && todo <= s.table.Keys
    case _ => true
  }

  predicate Shape(s: State) {
    FlagsOk(s) && TableOk(s) && QueuesOk(s) && AccepterOk(s) && WorkerOk(s)
  }

  predicate Each(s: State, k: nat)
    requires |s.mutexes| == |s.heap| && k < |s.heap|
  {
    MutexMatches(s, k) && SessionOk(s, k) && HistoryOk(s, k)
  }

  predicate Core(s: State) {
    Shape(s) && forall k :: 0 <= k < |s.heap| ==> Each(s, k)
  }

  predicate Inv(s: State) {
    LocksMatch(s) && Core(s) && RoundOk(s) && StopOk(s)
  }

  // ----- tags

  // Below 2^62 sessions, what a thread reads out of a tag is what the owner put in.
  lemma TagTells(op: Op)
    requires op.owner < IDS
    ensures Detagify(TagOf(op)) == (op.owner, op.event)
  {
    hide Tagify, Detagify;
    TagRoundTrip(op.owner, op.event);
  }
}
