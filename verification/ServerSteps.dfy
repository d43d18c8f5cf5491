/** Every step of the asynchronous server keeps its invariant. The lemmas follow the program counters: for each
    section of the code, what it does to the locks, to the shape of the shared state, and to one session `k`. */
module ServerSteps {
  import opened Tags
  import opened Sessions
  import opened Server
  import opened ServerInvariant

  // ----- the locks, step by step

  predicate Handler(t: Thread) {
    t.Accepter? || t.Worker?
  }

  lemma AddLocks(s: State, t: Thread)
    requires Handler(t) && Adding(PcOf(s, t)) && HandlerEnabled(s, t, Go) && LocksMatch(s)
    ensures LocksMatch(AddNewSession(s, t))
  {
  }

  lemma GetLocks(s: State, t: Thread)
    requires Handler(t) && Getting(PcOf(s, t)) && HandlerEnabled(s, t, Go) && LocksMatch(s)
    ensures LocksMatch(GetSession(s, t))
  {
  }

  lemma RemoveLocks(s: State, t: Thread)
    requires Handler(t) && Removing(PcOf(s, t)) && HandlerEnabled(s, t, Go) && LocksMatch(s)
    ensures LocksMatch(RemoveSession(s, t))
  {
  }

  lemma ProcessLockLocks(s: State, t: Thread)
    requires Handler(t) && (PcOf(s, t).SessionLock? || PcOf(s, t).SessionUnlock?)
      && HandlerEnabled(s, t, Go) && LocksMatch(s)
    ensures LocksMatch(ProcessEvent(s, t))
  {
    hide HoldsMatch;
  }

  lemma ProcessLocks(s: State, t: Thread)
    requires Handler(t) && (PcOf(s, t).Process? || PcOf(s, t).ProcessRest?) && HandlerEnabled(s, t, Go) && LocksMatch(s)
    ensures LocksMatch(ProcessEvent(s, t))
  {
    hide HoldsMatch;
  }

  lemma LoopLocks(s: State, t: Thread, c: Choice)
    requires Handler(t) && (PcOf(s, t).LoopCheck? || (PcOf(s, t).Poll? && c.Closed?))
      && HandlerEnabled(s, t, c) && LocksMatch(s)
    ensures LocksMatch(Await(s, t, c))
  {
    hide HoldsMatch;
  }

  lemma DeliverLocks(s: State, t: Thread, c: Choice)
    requires Handler(t) && PcOf(s, t).Poll? && c.Deliver? && HandlerEnabled(s, t, c) && LocksMatch(s)
    ensures LocksMatch(Await(s, t, c))
  {
    hide HoldsMatch;
  }

  lemma CastTakesLocks(s: State, id: nat)
    requires LocksMatch(s) && CastEnabled(s, id) && (s.cast.CastLock? || s.cast.CastUnlock?)
    ensures LocksMatch(CastStep(s, id))
  {
  }

  lemma CastKeepsLocks(s: State, id: nat)
    requires LocksMatch(s) && CastEnabled(s, id) && !s.cast.CastLock? && !s.cast.CastUnlock?
    ensures LocksMatch(CastStep(s, id))
  {
    hide SendResponse, CopiesOf, HoldsMatch;
    match s.cast
    case CastCheck =>
    case CastRecheck =>
    case CastScan(_) =>
    case CastSessionLock(_, _) =>
    case CastSend(_, _) =>
    case CastSessionUnlock(_, _) =>
    case _ =>
  }

  lemma StopTakesLocks(s: State, id: nat)
    requires LocksMatch(s) && StopEnabled(s, id) && (s.stop.StopLock? || s.stop.StopUnlock?)
    ensures LocksMatch(StopStep(s, id))
  {
  }

  lemma StopKeepsLocks(s: State, id: nat)
    requires LocksMatch(s) && StopEnabled(s, id) && !s.stop.StopLock? && !s.stop.StopUnlock?
    ensures LocksMatch(StopStep(s, id))
  {
    hide HoldsMatch;
    match s.stop
    case StopCheck =>
    case StopClear =>
    case StopScan(_) =>
    case StopSessionLock(_, _) =>
    case StopCancel(_, _) =>
    case StopSessionUnlock(_, _) =>
    case _ =>
  }

  // ----- a session that a step does not concern

  predicate Elsewhere(pc: Pc, k: nat) {
    !(Busy(pc) && pc.op.owner == k) && !(Processing(pc) && pc.k == k)
  }

  predicate Apart(s: State, u: State, k: nat) {
    && k < |s.heap| == |u.heap| && |s.mutexes| == |s.heap| == |u.mutexes|
    && u.heap[k] == s.heap[k] && u.mutexes[k] == s.mutexes[k] && u.table == s.table && u.running == s.running
    && u.conn == s.conn && u.acc == s.acc
    && u.readWrite[Op(k, ReadDone)] == s.readWrite[Op(k, ReadDone)]
    && u.readWrite[Op(k, WriteDone)] == s.readWrite[Op(k, WriteDone)]
    && (u.wrk == s.wrk || (Elsewhere(s.wrk, k) && Elsewhere(u.wrk, k)))
    && (CastMutex(u.cast, k) <==> CastMutex(s.cast, k)) && (StopMutex(u.stop, k) <==> StopMutex(s.stop, k))
  }

  lemma ApartEach(s: State, u: State, k: nat)
    requires Apart(s, u, k) && Each(s, k)
    ensures Each(u, k)
  {
    hide Balanced;
  }

  // ----- the accepter

  lemma AccepterAddLocks(s: State)
    requires Core(s) && LocksMatch(s) && |s.heap| <= IDS && HandlerEnabled(s, Accepter, Go)
      && (s.acc.AddLock? || s.acc.AddUnlock?)
    ensures Shape(AddNewSession(s, Accepter))
  {
  }

  lemma AccepterIssues(s: State)
    requires Core(s) && LocksMatch(s) && |s.heap| <= IDS && HandlerEnabled(s, Accepter, Go) && s.acc.AddIssue?
    ensures Shape(AddNewSession(s, Accepter))
  {
  }

  lemma AccepterInserts(s: State)
    requires Core(s) && LocksMatch(s) && |s.heap| <= IDS && HandlerEnabled(s, Accepter, Go) && s.acc.AddInsert?
    ensures Shape(AddNewSession(s, Accepter))
  {
  }

  lemma AccepterAddLocksEach(s: State, k: nat)
    requires Core(s) && |s.heap| <= IDS && HandlerEnabled(s, Accepter, Go) && (s.acc.AddLock? || s.acc.AddUnlock?)
    requires Shape(AddNewSession(s, Accepter)) && k < |AddNewSession(s, Accepter).heap|
    ensures Each(AddNewSession(s, Accepter), k)
  {
    assert k < |s.heap| ==> Each(s, k);
  }

  lemma AccepterIssuesEach(s: State, k: nat)
    requires Core(s) && s.acc.AddIssue? && Shape(AddNewSession(s, Accepter)) && k < |s.heap|
    ensures Each(AddNewSession(s, Accepter), k)
  {
    assert Each(s, k);
    hide Balanced;
  }

  lemma AccepterIssuesNew(s: State)
    requires Core(s) && LocksMatch(s) && s.acc.AddIssue? && Shape(AddNewSession(s, Accepter))
    ensures Each(AddNewSession(s, Accepter), |s.heap|)
  {
    assert Balanced(NEW_SESSION);
    hide Balanced;
  }

  lemma AccepterInsertsEach(s: State, k: nat)
    requires Core(s) && |s.heap| <= IDS && HandlerEnabled(s, Accepter, Go) && s.acc.AddInsert?
    requires Shape(AddNewSession(s, Accepter)) && k < |AddNewSession(s, Accepter).heap|
    ensures Each(AddNewSession(s, Accepter), k)
  {
    hide FlagsOk, AccepterOk, WorkerOk, QueuesOk, HandlerEnabled;
    assert k < |s.heap| ==> Each(s, k);
  }

  lemma AccepterLoops(s: State, c: Choice)
    requires Shape(s) && HandlerEnabled(s, Accepter, c) && (s.acc.LoopCheck? || (s.acc.Poll? && c.Closed?))
    ensures Shape(Await(s, Accepter, c))
  {
  }

  lemma AccepterReceives(s: State, c: Choice)
    requires Shape(s) && HandlerEnabled(s, Accepter, c) && s.acc.Poll? && c.Deliver?
    ensures Shape(Await(s, Accepter, c))
  {
  }

  lemma AccepterLoopsEach(s: State, c: Choice, k: nat)
    requires Core(s) && |s.heap| <= IDS && HandlerEnabled(s, Accepter, c) && (s.acc.LoopCheck? || c.Closed?)
    requires Shape(Await(s, Accepter, c)) && k < |Await(s, Accepter, c).heap|
    ensures Each(Await(s, Accepter, c), k)
  {
    assert k < |s.heap| ==> Each(s, k);
  }

  lemma AccepterReceivesEach(s: State, c: Choice, k: nat)
    requires Core(s) && |s.heap| <= IDS && HandlerEnabled(s, Accepter, c) && s.acc.Poll? && c.Deliver?
    requires Shape(Await(s, Accepter, c)) && k < |Await(s, Accepter, c).heap|
    ensures Each(Await(s, Accepter, c), k)
  {
    assert k < |s.heap| ==> Each(s, k);
  }

  lemma AccepterGetLocks(s: State)
    requires Core(s) && LocksMatch(s) && |s.heap| <= IDS && HandlerEnabled(s, Accepter, Go)
      && (s.acc.GetLock? || s.acc.GetUnlock?)
    ensures Shape(GetSession(s, Accepter))
  {
    TagTells(s.acc.op);
  }

  lemma AccepterFinds(s: State)
    requires Core(s) && LocksMatch(s) && |s.heap| <= IDS && HandlerEnabled(s, Accepter, Go) && s.acc.GetFind?
    ensures Shape(GetSession(s, Accepter))
  {
    TagTells(s.acc.op);
    assert Each(s, s.acc.op.owner);
  }

  lemma AccepterGetLocksEach(s: State, k: nat)
    requires Core(s) && |s.heap| <= IDS && HandlerEnabled(s, Accepter, Go) && (s.acc.GetLock? || s.acc.GetFind?)
    requires Shape(GetSession(s, Accepter)) && k < |GetSession(s, Accepter).heap|
    ensures Each(GetSession(s, Accepter), k)
  {
    assert k < |s.heap| ==> Each(s, k);
  }

  lemma AccepterGetUnlocksEach(s: State, k: nat)
    requires Core(s) && |s.heap| <= IDS && HandlerEnabled(s, Accepter, Go) && s.acc.GetUnlock?
    requires Shape(GetSession(s, Accepter)) && k < |GetSession(s, Accepter).heap|
    ensures Each(GetSession(s, Accepter), k)
  {
    hide FlagsOk, QueuesOk, HandlerEnabled;
    assert k < |s.heap| ==> Each(s, k);
    TagTells(s.acc.op);
  }

  lemma AccepterRemoveLocks(s: State)
    requires Core(s) && LocksMatch(s) && |s.heap| <= IDS && HandlerEnabled(s, Accepter, Go)
      && (s.acc.RemoveLock? || s.acc.RemoveUnlock?)
    ensures Shape(RemoveSession(s, Accepter))
  {
  }

  // A session whose accept is being handled is of no concern to the worker.
  lemma AccepterAlone(s: State)
    requires Core(s) && s.acc.RemoveErase? && (Busy(s.wrk) || s.wrk.ProcessRest?)
    ensures s.wrk.op.owner != s.acc.op.owner
  {
    assert Each(s, s.acc.op.owner);
  }

  lemma AccepterErases(s: State)
    requires Core(s) && LocksMatch(s) && |s.heap| <= IDS && HandlerEnabled(s, Accepter, Go) && s.acc.RemoveErase?
    ensures Shape(RemoveSession(s, Accepter))
  {
    hide Each, Detagify, TagOf;
    TagTells(s.acc.op);
    if Busy(s.wrk) || s.wrk.ProcessRest? {
      AccepterAlone(s);
    }
  }

  lemma AccepterRemoveLocksEach(s: State, k: nat)
    requires Core(s) && |s.heap| <= IDS && HandlerEnabled(s, Accepter, Go) && (s.acc.RemoveLock? || s.acc.RemoveUnlock?)
    requires Shape(RemoveSession(s, Accepter)) && k < |RemoveSession(s, Accepter).heap|
    ensures Each(RemoveSession(s, Accepter), k)
  {
    assert k < |s.heap| ==> Each(s, k);
  }

  lemma AccepterErasesEach(s: State, k: nat)
    requires Core(s) && |s.heap| <= IDS && HandlerEnabled(s, Accepter, Go) && s.acc.RemoveErase?
    requires Shape(RemoveSession(s, Accepter)) && k < |RemoveSession(s, Accepter).heap|
    ensures Each(RemoveSession(s, Accepter), k)
  {
    assert k < |s.heap| ==> Each(s, k);
    TagTells(s.acc.op);
  }

  lemma AccepterProcessLocks(s: State)
    requires Core(s) && LocksMatch(s) && |s.heap| <= IDS && HandlerEnabled(s, Accepter, Go)
      && (s.acc.SessionLock? || s.acc.SessionUnlock?)
    ensures Shape(ProcessEvent(s, Accepter))
  {
    assert Each(s, s.acc.k);
  }

  lemma AccepterProcessLocksEach(s: State, k: nat)
    requires Core(s) && |s.heap| <= IDS && HandlerEnabled(s, Accepter, Go)
      && (s.acc.SessionLock? || s.acc.SessionUnlock?)
    requires Shape(ProcessEvent(s, Accepter)) && k < |ProcessEvent(s, Accepter).heap|
    ensures Each(ProcessEvent(s, Accepter), k)
  {
    hide FlagsOk, QueuesOk, WorkerOk;
    assert k < |s.heap| ==> Each(s, k);
  }

  lemma AccepterProcesses(s: State)
    requires Core(s) && LocksMatch(s) && |s.heap| <= IDS && HandlerEnabled(s, Accepter, Go)
      && (s.acc.Process? || s.acc.ProcessRest?)
    ensures Shape(ProcessEvent(s, Accepter))
  {
    TagTells(s.acc.op);
    assert Each(s, s.acc.k);
  }

  lemma AccepterProcessesEach(s: State, k: nat)
    requires Core(s) && |s.heap| <= IDS && HandlerEnabled(s, Accepter, Go) && s.acc.Process?
    requires Shape(ProcessEvent(s, Accepter)) && k < |ProcessEvent(s, Accepter).heap|
    ensures Each(ProcessEvent(s, Accepter), k)
  {
    assert k < |s.heap| ==> Each(s, k);
    TagTells(s.acc.op);
    assert Each(s, s.acc.k);
  }

  lemma AccepterCompletesEach(s: State, k: nat)
    requires Core(s) && |s.heap| <= IDS && HandlerEnabled(s, Accepter, Go) && s.acc.ProcessRest?
    requires Shape(ProcessEvent(s, Accepter)) && k < |ProcessEvent(s, Accepter).heap|
    ensures Each(ProcessEvent(s, Accepter), k)
  {
    assert k < |s.heap| ==> Each(s, k);
    TagTells(s.acc.op);
    assert Each(s, s.acc.k);
  }

  // ----- the worker

  lemma WorkerLoops(s: State, c: Choice)
    requires Shape(s) && HandlerEnabled(s, Worker, c) && (s.wrk.LoopCheck? || (s.wrk.Poll? && c.Closed?))
    ensures Shape(Await(s, Worker, c))
  {
  }

  lemma WorkerReceives(s: State, c: Choice)
    requires Shape(s) && HandlerEnabled(s, Worker, c) && s.wrk.Poll? && c.Deliver?
    ensures Shape(Await(s, Worker, c))
  {
  }

  lemma WorkerLoopsEach(s: State, c: Choice, k: nat)
    requires Core(s) && |s.heap| <= IDS && HandlerEnabled(s, Worker, c) && (s.wrk.LoopCheck? || c.Closed?)
    requires Shape(Await(s, Worker, c)) && k < |Await(s, Worker, c).heap|
    ensures Each(Await(s, Worker, c), k)
  {
    assert k < |s.heap| ==> Each(s, k);
  }

  lemma ReceiveBalanced(x: Session, name: string)
    ensures Balanced(Receive(x, name)) <==> Balanced(x)
  {
  }

  lemma WorkerReceivesOwn(s: State, c: Choice)
    requires Core(s) && s.wrk.Poll? && c.Deliver? && c.op in s.readWrite && Shape(Await(s, Worker, c))
    ensures Each(Await(s, Worker, c), c.op.owner)
  {
    hide FlagsOk, AccepterOk, WorkerOk, Balanced;
    assert Each(s, c.op.owner);
    ReceiveBalanced(s.heap[c.op.owner], c.name);
  }

  lemma WorkerReceivesPasses(s: State, c: Choice, k: nat)
    requires TableOk(s) && s.wrk.Poll? && c.Deliver? && c.op in s.readWrite && k < |s.heap| && k != c.op.owner
    ensures Apart(s, Await(s, Worker, c), k)
  {
    hide Receive;
  }

  lemma WorkerReceivesEach(s: State, c: Choice, k: nat)
    requires Core(s) && HandlerEnabled(s, Worker, c) && s.wrk.Poll? && c.Deliver?
    requires Shape(Await(s, Worker, c)) && k < |s.heap|
    ensures Each(Await(s, Worker, c), k)
  {
    hide Await, Apart, Each, FlagsOk, AccepterOk, WorkerOk, QueuesOk;
    if k == c.op.owner {
      WorkerReceivesOwn(s, c);
    } else {
      assert Each(s, k);
      WorkerReceivesPasses(s, c, k);
      ApartEach(s, Await(s, Worker, c), k);
    }
  }

  lemma WorkerGetLocks(s: State)
    requires Core(s) && LocksMatch(s) && |s.heap| <= IDS && HandlerEnabled(s, Worker, Go)
      && (s.wrk.GetLock? || s.wrk.GetUnlock?)
    ensures Shape(GetSession(s, Worker))
  {
    TagTells(s.wrk.op);
  }

  lemma WorkerFinds(s: State)
    requires Core(s) && LocksMatch(s) && |s.heap| <= IDS && HandlerEnabled(s, Worker, Go) && s.wrk.GetFind?
    ensures Shape(GetSession(s, Worker))
  {
    TagTells(s.wrk.op);
    assert Each(s, s.wrk.op.owner);
  }

  lemma WorkerGetLocksEach(s: State, k: nat)
    requires Core(s) && |s.heap| <= IDS && HandlerEnabled(s, Worker, Go) && (s.wrk.GetLock? || s.wrk.GetFind?)
    requires Shape(GetSession(s, Worker)) && k < |GetSession(s, Worker).heap|
    ensures Each(GetSession(s, Worker), k)
  {
    assert k < |s.heap| ==> Each(s, k);
  }

  lemma WorkerGetUnlocksEach(s: State, k: nat)
    requires Core(s) && |s.heap| <= IDS && HandlerEnabled(s, Worker, Go) && s.wrk.GetUnlock?
    requires Shape(GetSession(s, Worker)) && k < |GetSession(s, Worker).heap|
    ensures Each(GetSession(s, Worker), k)
  {
    hide AccepterOk, FlagsOk, QueuesOk, HandlerEnabled;
    assert k < |s.heap| ==> Each(s, k);
    TagTells(s.wrk.op);
  }

  lemma WorkerRemoveLocks(s: State)
    requires Core(s) && LocksMatch(s) && |s.heap| <= IDS && HandlerEnabled(s, Worker, Go)
      && (s.wrk.RemoveLock? || s.wrk.RemoveUnlock?)
    ensures Shape(RemoveSession(s, Worker))
  {
  }

  lemma WorkerErases(s: State)
    requires Core(s) && LocksMatch(s) && |s.heap| <= IDS && HandlerEnabled(s, Worker, Go) && s.wrk.RemoveErase?
    ensures Shape(RemoveSession(s, Worker))
  {
    TagTells(s.wrk.op);
    assert Each(s, s.wrk.op.owner);
  }

  lemma WorkerRemoveLocksEach(s: State, k: nat)
    requires Core(s) && |s.heap| <= IDS && HandlerEnabled(s, Worker, Go) && (s.wrk.RemoveLock? || s.wrk.RemoveUnlock?)
    requires Shape(RemoveSession(s, Worker)) && k < |RemoveSession(s, Worker).heap|
    ensures Each(RemoveSession(s, Worker), k)
  {
    assert k < |s.heap| ==> Each(s, k);
  }

  lemma WorkerErasesEach(s: State, k: nat)
    requires Core(s) && |s.heap| <= IDS && HandlerEnabled(s, Worker, Go) && s.wrk.RemoveErase?
    requires Shape(RemoveSession(s, Worker)) && k < |RemoveSession(s, Worker).heap|
    ensures Each(RemoveSession(s, Worker), k)
  {
    assert k < |s.heap| ==> Each(s, k);
    TagTells(s.wrk.op);
  }

  lemma WorkerProcessLocks(s: State)
    requires Core(s) && LocksMatch(s) && |s.heap| <= IDS && HandlerEnabled(s, Worker, Go)
      && (s.wrk.SessionLock? || s.wrk.SessionUnlock?)
    ensures Shape(ProcessEvent(s, Worker))
  {
    hide Each, HoldsMatch;
  }

  lemma WorkerProcessLocksEach(s: State)
    requires Core(s) && HandlerEnabled(s, Worker, Go) && (s.wrk.SessionLock? || s.wrk.SessionUnlock?)
    requires Shape(ProcessEvent(s, Worker))
    ensures Each(ProcessEvent(s, Worker), s.wrk.k)
  {
    hide FlagsOk, QueuesOk, AccepterOk;
    assert Each(s, s.wrk.k);
    hide Balanced;
  }

  // The session of an event that the worker processes is connected.
  lemma WorkerConnected(s: State)
    requires Core(s) && s.wrk.Process?
    ensures !s.heap[s.wrk.k].status.WaitToConnect?
  {
    assert Each(s, s.wrk.k);
  }

  lemma WorkerAnswersQueues(s: State)
    requires TableOk(s) && QueuesOk(s) && WorkerOk(s) && s.wrk.Process?
    ensures QueuesOk(ProcessEvent(s, Worker))
  {
    hide FirstHalf, Detagify, TagOf;
  }

  lemma WorkerAnswers(s: State)
    requires Core(s) && |s.heap| <= IDS && s.wrk.Process?
    ensures Shape(ProcessEvent(s, Worker))
  {
    WorkerConnected(s);
    FirstHalfConnected(s.heap[s.wrk.k], s.wrk.op.event);
    WorkerAnswersQueues(s);
    hide Each, FirstHalf, Detagify, TagOf, QueuesOk;
    TagTells(s.wrk.op);
  }

  lemma WorkerCompletes(s: State)
    requires Core(s) && |s.heap| <= IDS && s.wrk.ProcessRest?
    ensures Shape(ProcessEvent(s, Worker))
  {
    hide Each;
    TagTells(s.wrk.op);
  }

  lemma WorkerRepliesEach(s: State, k: nat)
    requires Core(s) && |s.heap| <= IDS && HandlerEnabled(s, Worker, Go) && s.wrk.Process?
      && s.wrk.op.event.ReadDone? && k == s.wrk.k
    requires Shape(ProcessEvent(s, Worker)) && k < |ProcessEvent(s, Worker).heap|
    ensures Each(ProcessEvent(s, Worker), k)
  {
    hide Balanced;
    assert k < |s.heap| ==> Each(s, k);
    TagTells(s.wrk.op);
    HalvesKeepBalance(s.heap[s.wrk.k], s.wrk.op.event);
  }

  lemma WorkerFlushesEach(s: State, k: nat)
    requires Core(s) && |s.heap| <= IDS && HandlerEnabled(s, Worker, Go) && s.wrk.Process?
      && s.wrk.op.event.WriteDone? && k == s.wrk.k
    requires Shape(ProcessEvent(s, Worker)) && k < |ProcessEvent(s, Worker).heap|
    ensures Each(ProcessEvent(s, Worker), k)
  {
    hide Balanced;
    assert k < |s.heap| ==> Each(s, k);
    TagTells(s.wrk.op);
    HalvesKeepBalance(s.heap[s.wrk.k], s.wrk.op.event);
  }

  lemma WorkerPasses(s: State, k: nat)
    requires Shape(s) && s.wrk.Process? && k < |s.heap| && k != s.wrk.k
    ensures Apart(s, ProcessEvent(s, Worker), k)
  {
    hide FlagsOk, QueuesOk, AccepterOk, FirstHalf, Detagify, TagOf;
  }

  lemma WorkerPassesRest(s: State, k: nat)
    requires TableOk(s) && WorkerOk(s) && s.wrk.ProcessRest? && k < |s.heap| && k != s.wrk.k
    ensures Apart(s, ProcessEvent(s, Worker), k)
  {
    hide SecondHalf, Detagify, TagOf;
  }

  lemma WorkerPassesLocks(s: State, k: nat)
    requires Shape(s) && (s.wrk.SessionLock? || s.wrk.SessionUnlock?) && k < |s.heap| && k != s.wrk.k
    ensures Apart(s, ProcessEvent(s, Worker), k)
  {
    hide FlagsOk, QueuesOk, AccepterOk;
  }

  lemma ReadBalanced(x: Session)
    ensures Balanced(Read(x).0) <==> Balanced(x)
  {
  }

  lemma WorkerCompletesEach(s: State)
    requires Core(s) && |s.heap| <= IDS && s.wrk.ProcessRest? && Shape(ProcessEvent(s, Worker))
    ensures Each(ProcessEvent(s, Worker), s.wrk.k)
  {
    hide Balanced, Detagify, TagOf;
    assert Each(s, s.wrk.k);
    TagTells(s.wrk.op);
    ReadBalanced(s.heap[s.wrk.k]);
  }

  // ----- the broadcaster and Stop

  /** The sessions, the map, the queues and the other two threads are as they were, and the server was not
      started again. */
  predicate Undisturbed(s: State, t: State) {
    && t.heap == s.heap && |t.mutexes| == |s.mutexes| && t.table == s.table && t.conn == s.conn
    && t.readWrite == s.readWrite && t.acc == s.acc && t.wrk == s.wrk && (t.running ==> s.running)
  }

  lemma UndisturbedShape(s: State, t: State)
    requires Shape(s) && Undisturbed(s, t) && FlagsOk(t)
    ensures Shape(t)
  {
  }

  lemma UndisturbedEach(s: State, t: State, k: nat)
    requires Shape(s) && Undisturbed(s, t) && k < |s.heap| && Each(s, k) && MutexMatches(t, k)
    ensures Each(t, k)
  {
  }

  lemma CastUndisturbed(s: State, id: nat)
    requires CastEnabled(s, id) && !s.cast.CastSend? && FlagsOk(s)
    ensures Undisturbed(s, CastStep(s, id)) && FlagsOk(CastStep(s, id)) && CastStep(s, id).stop == s.stop
  {
  }

  predicate CastTurns(s: State) {
    s.cast.CastSessionLock? || s.cast.CastSessionUnlock?
  }

  lemma CastMutexes(s: State, id: nat, k: nat)
    requires CastTurns(s) && CastEnabled(s, id) && k < |s.mutexes| && MutexMatches(s, k)
    ensures k < |CastStep(s, id).mutexes| && MutexMatches(CastStep(s, id), k)
  {
  }

  lemma CastLeavesMutexes(s: State, id: nat, k: nat)
    requires !CastTurns(s) && CastEnabled(s, id)
    ensures CastStep(s, id).mutexes == s.mutexes && (CastMutex(CastStep(s, id).cast, k) <==> CastMutex(s.cast, k))
  {
  }

  lemma CastSendShape(s: State, id: nat)
    requires Core(s) && s.cast.CastSend? && s.cast.k in s.table
    ensures Shape(CastStep(s, id))
  {
    assert Each(s, s.cast.k);
  }

  lemma CastBalance(s: State)
    requires s.cast.CastSend? && s.cast.k < |s.heap| && Balanced(s.heap[s.cast.k])
    ensures Balanced(SendResponse(s.heap[s.cast.k], Broadcast).0)
  {
    if !s.heap[s.cast.k].status.WaitToConnect? {
      SendAppends(s.heap[s.cast.k], Broadcast);
    }
  }

  lemma CastSendEach(s: State, id: nat)
    requires Core(s) && s.cast.CastSend? && s.cast.k in s.table && Shape(CastStep(s, id))
    ensures Each(CastStep(s, id), s.cast.k)
  {
    hide Balanced;
    assert Each(s, s.cast.k);
    CastBalance(s);
  }

  lemma CastPasses(s: State, id: nat, k: nat)
    requires Shape(s) && s.cast.CastSend? && k < |s.heap| && k != s.cast.k
    ensures Apart(s, CastStep(s, id), k)
  {
    hide SendResponse;
  }

  lemma StopUndisturbed(s: State, id: nat)
    requires StopEnabled(s, id) && FlagsOk(s)
    ensures Undisturbed(s, StopStep(s, id)) && FlagsOk(StopStep(s, id))
    ensures StopStep(s, id).cast == s.cast && StopStep(s, id).round == s.round
  {
    match s.stop
    case StopCheck =>
    case StopClear =>
    case StopScan(_) =>
    case StopSessionLock(_, _) =>
    case StopCancel(_, _) =>
    case StopSessionUnlock(_, _) =>
    case StopLock =>
    case _ =>
  }

  predicate StopTurns(s: State) {
    s.stop.StopSessionLock? || s.stop.StopSessionUnlock?
  }

  lemma StopMutexes(s: State, id: nat, k: nat)
    requires StopTurns(s) && StopEnabled(s, id) && k < |s.mutexes| && MutexMatches(s, k)
    ensures k < |StopStep(s, id).mutexes| && MutexMatches(StopStep(s, id), k)
  {
  }

  lemma StopLeavesMutexes(s: State, id: nat, k: nat)
    requires !StopTurns(s) && StopEnabled(s, id)
    ensures StopStep(s, id).mutexes == s.mutexes && (StopMutex(StopStep(s, id).stop, k) <==> StopMutex(s.stop, k))
  {
    match s.stop
    case StopCheck =>
    case StopClear =>
    case StopScan(_) =>
    case StopCancel(_, _) =>
    case _ =>
  }

  // ----- the broadcast round

  predicate CastAside(s: State, t: State) {
    && t.cast == s.cast && t.round == s.round && t.stop == s.stop && t.table == s.table
    && (t.acc.AddInsert? ==> s.acc.AddInsert? || |t.heap| > |s.heap|)
  }

  /** The broadcaster, `Stop`, the map and the sessions are as they were, but for a new session. */
  predicate Quiet(s: State, t: State) {
    CastAside(s, t) && (t.heap == s.heap || t.heap == s.heap + [NEW_SESSION])
  }

  /** The broadcaster, `Stop` and the map are as they were, and so are the sessions, but for `k`, which has not taken
      on a broadcast copy. */
  predicate Touches(s: State, t: State, k: nat) {
    && CastAside(s, t)
    && (|| t.heap == s.heap
        || (k < |s.heap| == |t.heap| && t.heap == s.heap[k := t.heap[k]]
            && Copies(t.heap[k].log.accepted) == Copies(s.heap[k].log.accepted)))
  }

  predicate SameCopies(s: State, t: State, k: nat) {
    Quiet(s, t) || Touches(s, t, k)
  }

  lemma CopyFrame(s: State, t: State, k: nat, id: nat)
    requires id < |s.heap| && id in s.round.base && CopyKept(s, id) && SameCopies(s, t, k)
    ensures CopyKept(t, id)
  {
  }

  lemma RoundFrame(s: State, t: State, k: nat)
    requires TableOk(s) && RoundOk(s) && StopOk(s) && SameCopies(s, t, k)
    ensures RoundOk(t) && StopOk(t)
  {
    forall id | id in s.table && id in s.round.base && CopyKept(s, id) ensures CopyKept(t, id) {
      CopyFrame(s, t, k, id);
    }
  }

  lemma AddCopies(s: State, t: Thread)
    requires Adding(PcOf(s, t)) && !PcOf(s, t).AddInsert?
    ensures Quiet(s, AddNewSession(s, t))
  {
  }

  lemma GetCopies(s: State, t: Thread)
    requires Getting(PcOf(s, t))
    ensures Quiet(s, GetSession(s, t))
  {
    hide Lookup, Detagify, TagOf;
  }

  lemma LoopCopies(s: State, t: Thread, c: Choice)
    requires PcOf(s, t).LoopCheck? || c.Closed?
    ensures Quiet(s, Await(s, t, c))
  {
  }

  lemma DeliverCopies(s: State, t: Thread, c: Choice)
    requires PcOf(s, t).Poll? && c.Deliver?
    ensures Touches(s, Await(s, t, c), c.op.owner)
  {
  }

  lemma RemoveCopies(s: State, t: Thread)
    requires Removing(PcOf(s, t)) && !PcOf(s, t).RemoveErase?
    ensures Quiet(s, RemoveSession(s, t))
  {
  }

  lemma ProcessLockCopies(s: State, t: Thread)
    requires PcOf(s, t).SessionLock? || PcOf(s, t).SessionUnlock?
    ensures Quiet(s, ProcessEvent(s, t))
  {
  }

  lemma ProcessCopies(s: State, t: Thread)
    requires PcOf(s, t).Process? || PcOf(s, t).ProcessRest?
    ensures Touches(s, ProcessEvent(s, t), PcOf(s, t).k)
  {
    hide FirstHalf, SecondHalf, Copies;
    HalvesKeepCopies(At(s, PcOf(s, t).k), Detagify(TagOf(PcOf(s, t).op)).1);
  }

  lemma CastRoundStarts(s: State, id: nat)
    requires TableOk(s)
    requires s.cast.CastCheck? || s.cast.CastLock? || s.cast.CastRecheck? || s.cast.CastUnlock?
    ensures CastEnabled(s, id) ==> RoundOk(CastStep(s, id))
  {
  }

  lemma RoundMoves(s: State, t: State, rest: set<nat>)
    requires RoundKept(s, rest) && t.round == s.round && t.table == s.table && t.heap == s.heap
    ensures RoundKept(t, rest)
  {
    assert forall i :: i in s.round.base && CopyKept(s, i) ==> CopyKept(t, i);
  }

  lemma CastRoundScans(s: State, id: nat)
    requires TableOk(s) && s.cast.CastScan? && RoundKept(s, s.cast.todo) && CastEnabled(s, id)
    ensures RoundOk(CastStep(s, id))
  {
    RoundMoves(s, CastStep(s, id), s.cast.todo);
    assert s.cast.todo != {} ==> s.cast.todo - {id} + {id} == s.cast.todo;
  }

  lemma CastRoundTurns(s: State, id: nat)
    requires RoundOk(s) && CastEnabled(s, id) && CastTurns(s)
    ensures RoundOk(CastStep(s, id))
  {
    var t := CastStep(s, id);
    assert forall i :: i in s.round.base && CopyKept(s, i) ==> CopyKept(t, i);
  }

  lemma CastCopies(s: State, id: nat, i: nat)
    requires s.cast.CastSend? && s.cast.k < |s.heap| && i < |s.heap| && i in s.round.base && CopyKept(s, i)
    requires s.cast.k !in s.round.visited
    ensures CopyKept(CastStep(s, id), i)
  {
    if i == s.cast.k && !s.heap[i].status.WaitToConnect? {
      SendAppends(s.heap[i], Broadcast);
    }
  }

  lemma CastRoundSends(s: State, id: nat)
    requires TableOk(s) && RoundOk(s) && s.cast.CastSend?
    ensures RoundOk(CastStep(s, id))
  {
    hide CopyKept, SendResponse;
    forall i | i in s.table ensures CopyKept(CastStep(s, id), i) {
      CastCopies(s, id, i);
    }
    var t := CastStep(s, id);
    assert t.round.visited.Keys == s.round.visited.Keys + {s.cast.k};
  }

  lemma CastStopOk(s: State, id: nat)
    requires StopOk(s) && CastEnabled(s, id)
    ensures StopOk(CastStep(s, id))
  {
  }

  lemma StopRound(s: State, id: nat)
    requires RoundOk(s) && StopEnabled(s, id) && FlagsOk(s)
    ensures RoundOk(StopStep(s, id))
  {
    StopUndisturbed(s, id);
    hide StopStep;
    assert forall i :: i in s.round.base && CopyKept(s, i) ==> CopyKept(StopStep(s, id), i);
  }

  lemma StopStopOk(s: State, id: nat)
    requires TableOk(s) && StopOk(s) && StopEnabled(s, id)
    ensures StopOk(StopStep(s, id))
  {
  }

  // A thread that changes the map finds no round and no `Stop` scan under way.
  lemma TableChangeRounds(s: State, t: Thread, u: State)
    requires Handler(t) && (PcOf(s, t).AddInsert? || PcOf(s, t).RemoveErase?) && LocksMatch(s)
    requires u.cast == s.cast && u.stop == s.stop
    ensures RoundOk(u) && StopOk(u)
  {
  }

  // ----- every step keeps the invariant

  lemma AccepterAddsInv(s: State)
    requires Inv(s) && |s.heap| <= IDS && HandlerEnabled(s, Accepter, Go) && Adding(s.acc)
    ensures Inv(AddNewSession(s, Accepter))
  {
    hide LocksMatch, RoundOk, StopOk, Each, Quiet;
    var u := AddNewSession(s, Accepter);
    AddLocks(s, Accepter);
    if s.acc.AddIssue? {
      AccepterIssues(s);
      AccepterIssuesNew(s);
      forall k: nat | k < |s.heap| ensures Each(u, k) { AccepterIssuesEach(s, k); }
    } else if s.acc.AddInsert? {
      AccepterInserts(s);
      forall k: nat | k < |u.heap| ensures Each(u, k) { AccepterInsertsEach(s, k); }
    } else {
      AccepterAddLocks(s);
      forall k: nat | k < |u.heap| ensures Each(u, k) { AccepterAddLocksEach(s, k); }
    }
    if s.acc.AddInsert? {
      TableChangeRounds(s, Accepter, u);
    } else {
      AddCopies(s, Accepter);
      RoundFrame(s, u, 0);
    }
  }

  lemma AccepterAwaitsInv(s: State, c: Choice)
    requires Inv(s) && |s.heap| <= IDS && HandlerEnabled(s, Accepter, c) && (s.acc.LoopCheck? || s.acc.Poll?)
    ensures Inv(Await(s, Accepter, c))
  {
    var u := Await(s, Accepter, c);
    if s.acc.Poll? && c.Deliver? {
      DeliverLocks(s, Accepter, c);
      AccepterReceives(s, c);
      forall k: nat | k < |u.heap| ensures Each(u, k) { AccepterReceivesEach(s, c, k); }
      DeliverCopies(s, Accepter, c);
      RoundFrame(s, u, c.op.owner);
    } else {
      LoopLocks(s, Accepter, c);
      AccepterLoops(s, c);
      forall k: nat | k < |u.heap| ensures Each(u, k) { AccepterLoopsEach(s, c, k); }
      LoopCopies(s, Accepter, c);
      RoundFrame(s, u, 0);
    }
  }

  lemma AccepterGetsInv(s: State)
    requires Inv(s) && |s.heap| <= IDS && HandlerEnabled(s, Accepter, Go) && Getting(s.acc)
    ensures Inv(GetSession(s, Accepter))
  {
    var u := GetSession(s, Accepter);
    GetLocks(s, Accepter);
    if s.acc.GetFind? {
      AccepterFinds(s);
    } else {
      AccepterGetLocks(s);
    }
    forall k: nat | k < |u.heap| ensures Each(u, k) {
      if s.acc.GetUnlock? {
        AccepterGetUnlocksEach(s, k);
      } else {
        AccepterGetLocksEach(s, k);
      }
    }
    GetCopies(s, Accepter);
    RoundFrame(s, u, 0);
  }

  lemma AccepterRemovesInv(s: State)
    requires Inv(s) && |s.heap| <= IDS && HandlerEnabled(s, Accepter, Go) && Removing(s.acc)
    ensures Inv(RemoveSession(s, Accepter))
  {
    var u := RemoveSession(s, Accepter);
    RemoveLocks(s, Accepter);
    if s.acc.RemoveErase? {
      AccepterErases(s);
      forall k: nat | k < |u.heap| ensures Each(u, k) { AccepterErasesEach(s, k); }
      TableChangeRounds(s, Accepter, u);
    } else {
      AccepterRemoveLocks(s);
      forall k: nat | k < |u.heap| ensures Each(u, k) { AccepterRemoveLocksEach(s, k); }
      RemoveCopies(s, Accepter);
      RoundFrame(s, u, 0);
    }
  }

  lemma AccepterProcessesInv(s: State)
    requires Inv(s) && |s.heap| <= IDS && HandlerEnabled(s, Accepter, Go) && Processing(s.acc)
    ensures Inv(ProcessEvent(s, Accepter))
  {
    var u := ProcessEvent(s, Accepter);
    if s.acc.Process? || s.acc.ProcessRest? {
      ProcessLocks(s, Accepter);
      AccepterProcesses(s);
      ProcessCopies(s, Accepter);
      RoundFrame(s, u, s.acc.k);
    } else {
      ProcessLockLocks(s, Accepter);
      AccepterProcessLocks(s);
      ProcessLockCopies(s, Accepter);
      RoundFrame(s, u, 0);
    }
    forall k: nat | k < |u.heap| ensures Each(u, k) {
      if s.acc.Process? {
        AccepterProcessesEach(s, k);
      } else if s.acc.ProcessRest? {
        AccepterCompletesEach(s, k);
      } else {
        AccepterProcessLocksEach(s, k);
      }
    }
  }

  lemma WorkerAwaitsInv(s: State, c: Choice)
    requires Inv(s) && |s.heap| <= IDS && HandlerEnabled(s, Worker, c) && (s.wrk.LoopCheck? || s.wrk.Poll?)
    ensures Inv(Await(s, Worker, c))
  {
    var u := Await(s, Worker, c);
    if s.wrk.Poll? && c.Deliver? {
      DeliverLocks(s, Worker, c);
      WorkerReceives(s, c);
      forall k: nat | k < |u.heap| ensures Each(u, k) { WorkerReceivesEach(s, c, k); }
      DeliverCopies(s, Worker, c);
      RoundFrame(s, u, c.op.owner);
    } else {
      LoopLocks(s, Worker, c);
      WorkerLoops(s, c);
      forall k: nat | k < |u.heap| ensures Each(u, k) { WorkerLoopsEach(s, c, k); }
      LoopCopies(s, Worker, c);
      RoundFrame(s, u, 0);
    }
  }

  lemma WorkerGetsInv(s: State)
    requires Inv(s) && |s.heap| <= IDS && HandlerEnabled(s, Worker, Go) && Getting(s.wrk)
    ensures Inv(GetSession(s, Worker))
  {
    var u := GetSession(s, Worker);
    GetLocks(s, Worker);
    if s.wrk.GetFind? {
      WorkerFinds(s);
    } else {
      WorkerGetLocks(s);
    }
    forall k: nat | k < |u.heap| ensures Each(u, k) {
      if s.wrk.GetUnlock? {
        WorkerGetUnlocksEach(s, k);
      } else {
        WorkerGetLocksEach(s, k);
      }
    }
    GetCopies(s, Worker);
    RoundFrame(s, u, 0);
  }

  lemma WorkerRemovesInv(s: State)
    requires Inv(s) && |s.heap| <= IDS && HandlerEnabled(s, Worker, Go) && Removing(s.wrk)
    ensures Inv(RemoveSession(s, Worker))
  {
    var u := RemoveSession(s, Worker);
    RemoveLocks(s, Worker);
    if s.wrk.RemoveErase? {
      WorkerErases(s);
      forall k: nat | k < |u.heap| ensures Each(u, k) { WorkerErasesEach(s, k); }
      TableChangeRounds(s, Worker, u);
    } else {
      WorkerRemoveLocks(s);
      forall k: nat | k < |u.heap| ensures Each(u, k) { WorkerRemoveLocksEach(s, k); }
      RemoveCopies(s, Worker);
      RoundFrame(s, u, 0);
    }
  }

  lemma WorkerProcessesInv(s: State)
    requires Inv(s) && |s.heap| <= IDS && HandlerEnabled(s, Worker, Go) && Processing(s.wrk)
    ensures Inv(ProcessEvent(s, Worker))
  {
    var u := ProcessEvent(s, Worker);
    if s.wrk.Process? || s.wrk.ProcessRest? {
      ProcessLocks(s, Worker);
      if s.wrk.Process? {
        WorkerAnswers(s);
      } else {
        WorkerCompletes(s);
      }
      ProcessCopies(s, Worker);
      RoundFrame(s, u, s.wrk.k);
    } else {
      ProcessLockLocks(s, Worker);
      WorkerProcessLocks(s);
      ProcessLockCopies(s, Worker);
      RoundFrame(s, u, 0);
    }
    forall k: nat | k < |u.heap| ensures Each(u, k) {
      if k != s.wrk.k {
        assert Each(s, k);
        if s.wrk.Process? {
          WorkerPasses(s, k);
        } else if s.wrk.ProcessRest? {
          WorkerPassesRest(s, k);
        } else {
          WorkerPassesLocks(s, k);
        }
        ApartEach(s, u, k);
      } else if s.wrk.ProcessRest? {
        WorkerCompletesEach(s);
      } else if s.wrk.Process? && s.wrk.op.event.ReadDone? {
        WorkerRepliesEach(s, k);
      } else if s.wrk.Process? {
        WorkerFlushesEach(s, k);
      } else {
        WorkerProcessLocksEach(s);
      }
    }
  }

  lemma CastInv(s: State, id: nat)
    requires Inv(s) && CastEnabled(s, id)
    ensures Inv(CastStep(s, id))
  {
    var u := CastStep(s, id);
    if s.cast.CastLock? || s.cast.CastUnlock? {
      CastTakesLocks(s, id);
    } else {
      CastKeepsLocks(s, id);
    }
    CastStopOk(s, id);
    if s.cast.CastSend? {
      CastSendShape(s, id);
      CastRoundSends(s, id);
    } else {
      CastUndisturbed(s, id);
      UndisturbedShape(s, u);
      if s.cast.CastScan? {
        CastRoundScans(s, id);
      } else if CastTurns(s) {
        CastRoundTurns(s, id);
      } else {
        CastRoundStarts(s, id);
      }
    }
    forall k: nat | k < |u.heap| ensures Each(u, k) {
      CastEach(s, id, k);
    }
  }

  lemma CastEach(s: State, id: nat, k: nat)
    requires Inv(s) && CastEnabled(s, id) && Shape(CastStep(s, id)) && k < |CastStep(s, id).heap|
    ensures Each(CastStep(s, id), k)
  {
    if s.cast.CastSend? {
      if k == s.cast.k {
        CastSendEach(s, id);
      } else {
        assert Each(s, k);
        CastPasses(s, id, k);
        ApartEach(s, CastStep(s, id), k);
      }
    } else {
      CastUndisturbed(s, id);
      assert Each(s, k);
      if CastTurns(s) {
        CastMutexes(s, id, k);
      } else {
        CastLeavesMutexes(s, id, k);
      }
      UndisturbedEach(s, CastStep(s, id), k);
    }
  }

  lemma StopInv(s: State, id: nat)
    requires Inv(s) && StopEnabled(s, id)
    ensures Inv(StopStep(s, id))
  {
    var u := StopStep(s, id);
    if s.stop.StopLock? || s.stop.StopUnlock? {
      StopTakesLocks(s, id);
    } else {
      StopKeepsLocks(s, id);
    }
    StopUndisturbed(s, id);
    UndisturbedShape(s, u);
    StopRound(s, id);
    StopStopOk(s, id);
    forall k: nat | k < |u.heap| ensures Each(u, k) {
      assert Each(s, k);
      if StopTurns(s) {
        StopMutexes(s, id, k);
      } else {
        StopLeavesMutexes(s, id, k);
      }
      UndisturbedEach(s, u, k);
    }
  }

  /** Every step of every thread keeps the invariant, as long as at most 2^62 sessions were made before it. */
  lemma StepInv(s: State, a: Action)
    requires Inv(s) && Enabled(s, a) && |s.heap| <= IDS
    ensures Inv(Step(s, a))
  {
    match a
    case Accept(c) =>
      if Adding(s.acc) { AccepterAddsInv(s); }
      else if Getting(s.acc) { AccepterGetsInv(s); }
      else if Removing(s.acc) { AccepterRemovesInv(s); }
      else if Processing(s.acc) { AccepterProcessesInv(s); }
      else { AccepterAwaitsInv(s, c); }
    case Work(c) =>
      if Getting(s.wrk) { WorkerGetsInv(s); }
      else if Removing(s.wrk) { WorkerRemovesInv(s); }
      else if Processing(s.wrk) { WorkerProcessesInv(s); }
      else { WorkerAwaitsInv(s, c); }
    case Cast(id) => CastInv(s, id);
    case Halt(id) => StopInv(s, id);
  }
}
