/** A connected session of the asynchronous server always has its next read under way: no client is left unheard. */
module ServerReads {
  import opened Tags
  import opened Sessions
  import opened Server
  import opened ServerInvariant
  import opened ServerSteps
  import opened ServerTheorems
  import opened ServerLiveness

  // The accepter has started the first read of session `k`, and is about to mark it connected.
  predicate Connecting(s: State, k: nat) {
    s.acc.ProcessRest? && s.acc.k == k
  }

  // The worker has answered a read of session `k`, and is about to start the next one.
  predicate Rereading(s: State, k: nat) {
    s.wrk.ProcessRest? && s.wrk.k == k
  }

  predicate Hears(s: State, k: nat) {
    (!At(s, k).status.WaitToConnect? || Connecting(s, k)) && !Rereading(s, k)
  }

  /** Session `k` has one read under way or in the hands of the worker if it should hear its client, and none otherwise,
      and as many reads were started as names were answered, and that one. */
  predicate ReadsOn(s: State, k: nat)
    requires k < |s.heap|
  {
    var n := if Hears(s, k) then 1 else 0;
    Reads(s, k) == n && s.heap[k].log.started == |s.heap[k].log.answered| + n
  }

  // Session `k` is in the map, or about to be entered.
  predicate Watched(s: State, k: nat) {
    k in s.table || (s.acc.AddInsert? && k == |s.heap| - 1)
  }

  predicate ReadsKept(s: State, k: nat) {
    k < |s.heap| && (Watched(s, k) ==> ReadsOn(s, k))
  }

  predicate Listening(s: State) {
    forall k: nat :: k < |s.heap| ==> ReadsKept(s, k)
  }

  // ----- the accepter

  lemma AddReads(s: State, k: nat)
    requires TableOk(s) && |s.heap| <= IDS && Adding(s.acc) && ReadsKept(s, k)
    ensures ReadsKept(AddNewSession(s, Accepter), k)
  {
  }

  lemma NewReads(s: State)
    requires Shape(s) && s.acc.AddIssue?
    ensures ReadsKept(AddNewSession(s, Accepter), |s.heap|)
  {
  }

  lemma AccepterGetReads(s: State, k: nat)
    requires Getting(s.acc) && ReadsKept(s, k)
    ensures ReadsKept(GetSession(s, Accepter), k)
  {
    hide Lookup, Detagify, TagOf;
  }

  lemma AccepterRemoveReads(s: State, k: nat)
    requires Removing(s.acc) && ReadsKept(s, k)
    ensures ReadsKept(RemoveSession(s, Accepter), k)
  {
    hide Detagify, TagOf;
  }

  lemma AccepterAwaitReads(s: State, c: Choice, k: nat)
    requires Shape(s) && (s.acc.LoopCheck? || s.acc.Poll?) && HandlerEnabled(s, Accepter, c) && ReadsKept(s, k)
    ensures ReadsKept(Await(s, Accepter, c), k)
  {
  }

  lemma AccepterLockReads(s: State, k: nat)
    requires (s.acc.SessionLock? || s.acc.SessionUnlock?) && ReadsKept(s, k)
    ensures ReadsKept(ProcessEvent(s, Accepter), k)
  {
  }

  lemma AccepterWaits(s: State)
    requires Core(s) && s.acc.Process?
    ensures s.acc.k < |s.heap| && s.heap[s.acc.k].status.WaitToConnect? && !Rereading(s, s.acc.k)
  {
    assert Each(s, s.acc.k);
  }

  lemma AccepterProcessReads(s: State, k: nat)
    requires Core(s) && |s.heap| <= IDS && (s.acc.Process? || s.acc.ProcessRest?) && ReadsKept(s, k)
    ensures ReadsKept(ProcessEvent(s, Accepter), k)
  {
    if s.acc.Process? {
      AccepterWaits(s);
    }
    hide Each, Detagify, TagOf;
    TagTells(s.acc.op);
  }

  lemma AccepterReads(s: State, c: Choice, k: nat)
    requires Core(s) && |s.heap| <= IDS && HandlerEnabled(s, Accepter, c) && ReadsKept(s, k)
    ensures ReadsKept(HandlerStep(s, Accepter, c), k)
  {
    hide AddNewSession, GetSession, RemoveSession, ProcessEvent, Await, Each, ReadsKept;
    if Adding(s.acc) {
      AddReads(s, k);
    } else if Getting(s.acc) {
      AccepterGetReads(s, k);
    } else if Removing(s.acc) {
      AccepterRemoveReads(s, k);
    } else if s.acc.Process? || s.acc.ProcessRest? {
      AccepterProcessReads(s, k);
    } else if Processing(s.acc) {
      AccepterLockReads(s, k);
    } else {
      AccepterAwaitReads(s, c, k);
    }
  }

  // ----- the worker

  lemma NoReadYet(s: State)
    requires Core(s) && s.acc.AddInsert?
    ensures Reads(s, |s.heap| - 1) == 0
  {
    assert Each(s, |s.heap| - 1);
  }

  lemma WorkerFindReads(s: State, k: nat)
    requires (s.wrk.GetLock? || s.wrk.GetFind?) && ReadsKept(s, k)
    ensures ReadsKept(GetSession(s, Worker), k)
  {
    hide Detagify, TagOf, Lookup;
  }

  lemma WorkerGetReads(s: State, k: nat)
    requires Core(s) && |s.heap| <= IDS && s.wrk.GetUnlock? && ReadsKept(s, k)
    ensures ReadsKept(GetSession(s, Worker), k)
  {
    if s.acc.AddInsert? {
      NoReadYet(s);
    }
    hide Each, Detagify, TagOf, FlagsOk, QueuesOk, AccepterOk;
    TagTells(s.wrk.op);
  }

  lemma WorkerRemoveReads(s: State, k: nat)
    requires TableOk(s) && WorkerOk(s) && |s.heap| <= IDS && Removing(s.wrk) && ReadsKept(s, k)
    ensures ReadsKept(RemoveSession(s, Worker), k)
  {
    hide Detagify, TagOf;
    if s.wrk.RemoveErase? {
      TagTells(s.wrk.op);
    }
  }

  lemma WorkerAwaitReads(s: State, c: Choice, k: nat)
    requires (s.wrk.LoopCheck? || s.wrk.Poll?) && HandlerEnabled(s, Worker, c) && ReadsKept(s, k)
    ensures ReadsKept(Await(s, Worker, c), k)
  {
  }

  lemma WorkerLockReads(s: State, k: nat)
    requires (s.wrk.SessionLock? || s.wrk.SessionUnlock?) && ReadsKept(s, k)
    ensures ReadsKept(ProcessEvent(s, Worker), k)
  {
  }

  lemma ApartReads(s: State, u: State, k: nat)
    requires Apart(s, u, k) && ReadsKept(s, k)
    ensures ReadsKept(u, k)
  {
  }

  lemma WorkerProcessOwn(s: State)
    requires Core(s) && |s.heap| <= IDS && s.wrk.Process? && ReadsKept(s, s.wrk.k)
    ensures ReadsKept(ProcessEvent(s, Worker), s.wrk.k)
  {
    WorkerConnected(s);
    hide Each, Detagify, TagOf, FlagsOk, QueuesOk, AccepterOk;
    TagTells(s.wrk.op);
  }

  lemma WorkerProcessReads(s: State, k: nat)
    requires Core(s) && |s.heap| <= IDS && s.wrk.Process? && ReadsKept(s, k)
    ensures ReadsKept(ProcessEvent(s, Worker), k)
  {
    hide Each, ProcessEvent, ReadsOn, Apart;
    if k == s.wrk.k {
      WorkerProcessOwn(s);
    } else {
      WorkerPasses(s, k);
      ApartReads(s, ProcessEvent(s, Worker), k);
    }
  }

  lemma WorkerRestReads(s: State, k: nat)
    requires Shape(s) && |s.heap| <= IDS && s.wrk.ProcessRest? && ReadsKept(s, k)
    ensures ReadsKept(ProcessEvent(s, Worker), k)
  {
    hide Detagify, TagOf;
    TagTells(s.wrk.op);
  }

  lemma WorkerReads(s: State, c: Choice, k: nat)
    requires Core(s) && |s.heap| <= IDS && HandlerEnabled(s, Worker, c) && ReadsKept(s, k)
    ensures ReadsKept(HandlerStep(s, Worker, c), k)
  {
    hide AddNewSession, GetSession, RemoveSession, ProcessEvent, Await, Each, ReadsKept;
    if s.wrk.GetUnlock? {
      WorkerGetReads(s, k);
    } else if Getting(s.wrk) {
      WorkerFindReads(s, k);
    } else if Removing(s.wrk) {
      WorkerRemoveReads(s, k);
    } else if s.wrk.Process? {
      WorkerProcessReads(s, k);
    } else if s.wrk.ProcessRest? {
      WorkerRestReads(s, k);
    } else if Processing(s.wrk) {
      WorkerLockReads(s, k);
    } else {
      WorkerAwaitReads(s, c, k);
    }
  }

  // ----- the broadcaster and Stop

  lemma CastReads(s: State, id: nat, k: nat)
    requires FlagsOk(s) && CastEnabled(s, id) && ReadsKept(s, k)
    ensures ReadsKept(CastStep(s, id), k)
  {
    if !s.cast.CastSend? {
      CastUndisturbed(s, id);
      hide CastStep;
    }
  }

  lemma StepReads(s: State, a: Action, k: nat)
    requires Core(s) && |s.heap| <= IDS && Enabled(s, a) && ReadsKept(s, k)
    ensures ReadsKept(Step(s, a), k)
  {
    hide HandlerStep, CastStep, StopStep, Each;
    match a
    case Accept(c) => AccepterReads(s, c, k);
    case Work(c) => WorkerReads(s, c, k);
    case Cast(id) => CastReads(s, id, k);
    case Halt(id) => StopUndisturbed(s, id);
  }

  // ----- whole runs

  lemma StepListens(s: State, a: Action)
    requires Inv(s) && |s.heap| <= IDS && Enabled(s, a) && Listening(s)
    ensures Listening(Step(s, a))
  {
    hide ReadsKept, Each, LocksMatch, RoundOk, StopOk;
    var u := Step(s, a);
    forall k: nat | k < |u.heap| ensures ReadsKept(u, k) {
      if k < |s.heap| {
        StepReads(s, a, k);
      } else {
        SessionMade(s, a);
        NewReads(s);
      }
    }
  }

  // Only `AddNewSession` makes a session, and one at a time.
  lemma SessionMade(s: State, a: Action)
    requires Shape(s) && Enabled(s, a) && |Step(s, a).heap| > |s.heap|
    ensures a.Accept? && s.acc.AddIssue? && Step(s, a) == AddNewSession(s, Accepter)
    ensures |Step(s, a).heap| == |s.heap| + 1
  {
    hide HandlerStep, CastStep, StopStep;
    match a
    case Accept(c) => AccepterMade(s, c);
    case Work(c) => HandlerFlags(s, Worker, c);
    case Cast(id) => CastFlags(s, id);
    case Halt(id) => StopUndisturbed(s, id);
  }

  lemma AccepterMade(s: State, c: Choice)
    requires HandlerEnabled(s, Accepter, c) && |HandlerStep(s, Accepter, c).heap| > |s.heap|
    ensures s.acc.AddIssue?
    ensures HandlerStep(s, Accepter, c) == AddNewSession(s, Accepter)
    ensures |HandlerStep(s, Accepter, c).heap| == |s.heap| + 1
  {
    if ChangesMap(s.acc) {
      TableChangeSessions(s, Accepter, c);
    } else if ChangesSession(s.acc, c) {
      var _ := SessionStep(s, Accepter, c);
    }
  }

  lemma {:induction false} RunListens(s: State, run: seq<Action>, t: State)
    requires Inv(s) && Listening(s) && Leads(s, run, t) && |t.heap| <= IDS
    ensures Listening(t)
    decreases |run|
  {
    if run != [] {
      hide Listening;
      var u := Step(s, run[0]);
      SessionsStay(s, run[0]);
      HeapGrows(u, run[1..], t);
      StepInv(s, run[0]);
      StepListens(s, run[0]);
      RunListens(u, run[1..], t);
    }
  }

  /** In every run, a connected session of the map has exactly one read under way or in the hands of the worker, but for
      the moment between a reply and the next read; and one more read was started than names were answered. */
  lemma AlwaysListens(s: State, k: nat)
    requires Reached(s) && k in s.table
    ensures k < |s.heap|
    ensures var x := s.heap[k];
      if Rereading(s, k) then Reads(s, k) == 0 && x.log.started == |x.log.answered|
      else if x.status.WaitToConnect? then Reads(s, k) <= 1 && x.log.started == Reads(s, k) && x.log.answered == []
      else Reads(s, k) == 1 && x.log.started == |x.log.answered| + 1
  {
    ReachedInv(s);
    ReachedInv(INITIAL) by {
      assert Leads(INITIAL, [], INITIAL);
    }
    var run :| Leads(INITIAL, run, s);
    RunListens(INITIAL, run, s);
    assert ReadsKept(s, k);
    assert Each(s, k);
  }

  /** In terms of what was received: of the reads started, all but the one under way have brought in a name, or the
      worker has its failure at hand. */
  lemma ReadsAccounted(s: State, k: nat)
    requires Reached(s) && k in s.table
    ensures k < |s.heap|
    ensures var x := s.heap[k];
      && (Op(k, ReadDone) in s.readWrite ==> x.log.started == |x.log.received| + 1)
      && (ToAnswer(s, k) ==> x.log.started == |x.log.received|)
  {
    AlwaysListens(s, k);
    ReachedInv(s);
    assert Each(s, k);
  }
}
