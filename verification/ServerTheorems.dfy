/** What holds in every run of the asynchronous server. */
module ServerTheorems {
  import opened Tags
  import opened Sessions
  import opened Server
  import opened ServerInvariant
  import opened ServerSteps

  /** `s` is a state of some run of the server in which at most 2^62 sessions have been made. */
  ghost predicate Reached(s: State) {
    |s.heap| <= IDS && exists run :: Leads(INITIAL, run, s)
  }

  predicate ChangesMap(pc: Pc) {
    pc.AddInsert? || pc.RemoveErase?
  }

  predicate ChangesSession(pc: Pc, c: Choice) {
    pc.Process? || pc.ProcessRest? || (pc.Poll? && c.Deliver?)
  }

  lemma QuietStep(s: State, t: Thread, c: Choice)
    requires HandlerEnabled(s, t, c) && !ChangesMap(PcOf(s, t)) && !ChangesSession(PcOf(s, t), c)
    ensures Quiet(s, HandlerStep(s, t, c))
  {
    hide AddNewSession, GetSession, RemoveSession, Await, ProcessEvent, Quiet;
    var pc := PcOf(s, t);
    if Adding(pc) {
      AddCopies(s, t);
    } else if Getting(pc) {
      GetCopies(s, t);
    } else if Removing(pc) {
      RemoveCopies(s, t);
    } else if Processing(pc) {
      ProcessLockCopies(s, t);
    } else {
      LoopCopies(s, t, c);
    }
  }

  lemma SessionStep(s: State, t: Thread, c: Choice) returns (k: nat)
    requires HandlerEnabled(s, t, c) && ChangesSession(PcOf(s, t), c)
    ensures Touches(s, HandlerStep(s, t, c), k)
    ensures !PcOf(s, t).Poll? ==> k == PcOf(s, t).k
  {
    hide Await, ProcessEvent, Touches;
    if PcOf(s, t).Poll? {
      DeliverCopies(s, t, c);
      k := c.op.owner;
    } else {
      ProcessCopies(s, t);
      k := PcOf(s, t).k;
    }
  }

  lemma TableChangeSessions(s: State, t: Thread, c: Choice)
    requires ChangesMap(PcOf(s, t))
    ensures HandlerStep(s, t, c).heap == s.heap
  {
  }

  lemma HandlerKeepsSessions(s: State, t: Thread, c: Choice)
    requires HandlerEnabled(s, t, c)
    ensures |s.heap| <= |HandlerStep(s, t, c).heap|
  {
    if ChangesMap(PcOf(s, t)) {
      TableChangeSessions(s, t, c);
    } else if ChangesSession(PcOf(s, t), c) {
      var _ := SessionStep(s, t, c);
    } else {
      QuietStep(s, t, c);
    }
  }

  lemma SessionsStay(s: State, a: Action)
    requires Enabled(s, a)
    ensures |s.heap| <= |Step(s, a).heap|
  {
    hide HandlerStep;
    match a
    case Accept(c) => HandlerKeepsSessions(s, Accepter, c);
    case Work(c) => HandlerKeepsSessions(s, Worker, c);
    case Cast(id) =>
    case Halt(id) =>
  }

  lemma {:induction false} RunKeepsInv(s: State, run: seq<Action>, t: State)
    requires Inv(s) && Leads(s, run, t) && |t.heap| <= IDS
    ensures Inv(t) && |s.heap| <= |t.heap|
    decreases |run|
  {
    if run != [] {
      var u := Step(s, run[0]);
      SessionsStay(s, run[0]);
      HeapGrows(u, run[1..], t);
      StepInv(s, run[0]);
      RunKeepsInv(u, run[1..], t);
    }
  }

  lemma {:induction false} HeapGrows(s: State, run: seq<Action>, t: State)
    requires Leads(s, run, t)
    ensures |s.heap| <= |t.heap|
    decreases |run|
  {
    if run != [] {
      SessionsStay(s, run[0]);
      HeapGrows(Step(s, run[0]), run[1..], t);
    }
  }

  /** The invariant holds in every state of every run. */
  lemma ReachedInv(s: State)
    requires Reached(s)
    ensures Inv(s)
  {
    var run :| Leads(INITIAL, run, s);
    RunKeepsInv(INITIAL, run, s);
  }

  // ----- conservation and order

  /** In every run and for every session: the messages taken on are the messages written followed by the queue;
      the replies among them are one per answered name, in order; the names answered are the names
      received, in order, but for at most the last; and a session of the map whose last message the worker
      does not have at hand has answered all of them. */
  lemma Conservation(s: State, k: nat)
    requires Reached(s) && k < |s.heap|
    ensures var x := s.heap[k];
      && x.log.accepted == x.log.written + x.queue
      && Replies(x.log.accepted) == x.log.answered
      && x.log.answered <= x.log.received && |x.log.received| <= |x.log.answered| + 1
      && (k in s.table && !ToAnswer(s, k) ==> x.log.answered == x.log.received)
  {
    ReachedInv(s);
    assert Each(s, k);
  }

  lemma ReadHeld(s: State)
    requires Core(s) && s.wrk.Process? && s.wrk.op.event.ReadDone?
    ensures var x := s.heap[s.wrk.k];
      !x.status.WaitToConnect? && x.log.received == x.log.answered + [x.request]
  {
    WorkerConnected(s);
    assert Each(s, s.wrk.k);
    hide Balanced, MutexMatches, SessionOk;
  }

  lemma ReadProcessed(s: State)
    requires WorkerOk(s) && TableOk(s) && |s.heap| <= IDS && s.wrk.Process? && s.wrk.op.event.ReadDone?
    ensures At(HandlerStep(s, Worker, Go), s.wrk.k) == FirstHalf(s.heap[s.wrk.k], ReadDone).0
  {
    TagTells(s.wrk.op);
    hide FirstHalf, Detagify, TagOf;
  }

  lemma ReplyTaken(x: Session)
    requires !x.status.WaitToConnect? && x.log.received == x.log.answered + [x.request]
    ensures var y := FirstHalf(x, ReadDone).0;
      && y.log.accepted == x.log.accepted + [Hello(x.log.received[|x.log.received| - 1])]
      && y.log.answered == x.log.received
  {
  }

  /** The status guard of `SendResponse` never drops a reply: whenever the worker processes a completed read, the
      session takes on the reply to the message just received. */
  lemma ReplyNeverDropped(s: State)
    requires Reached(s) && s.wrk.Process? && s.wrk.op.event.ReadDone?
    ensures var k := s.wrk.k;
      && k < |s.heap| && Enabled(s, Work(Go))
      && var x := s.heap[k]; var y := At(Step(s, Work(Go)), k);
         && x.log.received != []
         && y.log.accepted == x.log.accepted + [Hello(x.log.received[|x.log.received| - 1])]
         && y.log.answered == x.log.received
  {
    hide HandlerStep, FirstHalf, Each, LocksMatch, RoundOk, StopOk;
    ReachedInv(s);
    ReadHeld(s);
    ReadProcessed(s);
    ReplyTaken(s.heap[s.wrk.k]);
  }

  // ----- single flight

  /** At most one accept, one read and one write of a session are ever under way or waiting to be processed. For a
      session of the map, one write is under way exactly when the status says so; a session that is ready or
      waiting has nothing queued and no write under way; and one whose connection is still asked for has not
      read either. */
  lemma SingleFlight(s: State, k: nat)
    requires Reached(s) && k < |s.heap|
    ensures Accepts(s, k) <= 1 && Reads(s, k) <= 1 && Writes(s, k) <= 1
    ensures k in s.table ==> (s.heap[k].status.WaitWriteDone? <==> Writes(s, k) == 1)
    ensures !s.heap[k].status.WaitWriteDone? ==> s.heap[k].queue == [] && Writes(s, k) == 0
    ensures Accepts(s, k) == 1 ==> Reads(s, k) == 0 && s.heap[k].status.WaitToConnect?
  {
    ReachedInv(s);
    assert Each(s, k);
  }

  // ----- after removal

  /** Session `k` was in the map and is no longer. */
  predicate Removed(s: State, k: nat) {
    k < |s.heap| && k !in s.table && !(s.acc.AddInsert? && k == |s.heap| - 1)
  }

  predicate SameOutput(x: Session, y: Session) {
    x.log.started == y.log.started && x.log.written == y.log.written && x.log.accepted == y.log.accepted
  }

  lemma ReceiveSameOutput(x: Session, name: string)
    ensures SameOutput(x, x) && SameOutput(x, Receive(x, name))
  {
  }

  lemma DeliverHeap(s: State, t: Thread, c: Choice)
    requires PcOf(s, t).Poll? && c.Deliver?
    ensures Await(s, t, c).heap == s.heap || (c.op.owner < |s.heap|
              && Await(s, t, c).heap == s.heap[c.op.owner := Receive(s.heap[c.op.owner], c.name)])
  {
    hide Receive;
  }

  lemma ReceiveStarts(s: State, t: Thread, c: Choice, k: nat)
    requires PcOf(s, t).Poll? && c.Deliver? && k < |s.heap|
    ensures SameOutput(s.heap[k], At(Await(s, t, c), k))
  {
    DeliverHeap(s, t, c);
    ReceiveSameOutput(s.heap[k], c.name);
    hide Await, Receive, SameOutput;
  }

  // The accepter finishes a connect event on a session that may have left the map.
  lemma CompleteStarts(s: State, k: nat)
    requires Shape(s) && |s.heap| <= IDS && s.acc.ProcessRest? && k < |s.heap|
    ensures SameOutput(s.heap[k], At(ProcessEvent(s, Accepter), k))
  {
    TagTells(s.acc.op);
  }

  lemma HandlerStarts(s: State, t: Thread, c: Choice, k: nat)
    requires Handler(t) && Inv(s) && |s.heap| <= IDS && HandlerEnabled(s, t, c) && k < |s.heap| && k !in s.table
    ensures SameOutput(s.heap[k], At(HandlerStep(s, t, c), k))
  {
    hide AddNewSession, GetSession, RemoveSession, Await, ProcessEvent;
    assert Each(s, k);
    var pc := PcOf(s, t);
    if ChangesMap(pc) {
      TableChangeSessions(s, t, c);
    } else if !ChangesSession(pc, c) {
      QuietStep(s, t, c);
    } else if pc.Poll? {
      ReceiveStarts(s, t, c, k);
    } else if t.Accepter? && pc.ProcessRest? {
      CompleteStarts(s, k);
    } else {
      var _ := SessionStep(s, t, c);
    }
  }

  lemma CastStarts(s: State, id: nat, k: nat)
    requires Inv(s) && CastEnabled(s, id) && k < |s.heap| && k !in s.table
    ensures SameOutput(s.heap[k], At(CastStep(s, id), k))
  {
    if s.cast.CastSend? {
      assert s.cast.k != k;
    } else {
      CastUndisturbed(s, id);
    }
  }

  /** A read or a write is only ever started, and a message only ever taken on, by a session that is in the map at
      that moment. */
  lemma StartedOnlyInMap(s: State, a: Action, k: nat)
    requires Inv(s) && |s.heap| <= IDS && Enabled(s, a) && k < |s.heap| && k !in s.table
    ensures SameOutput(s.heap[k], At(Step(s, a), k))
  {
    match a
    case Accept(c) => HandlerStarts(s, Accepter, c, k);
    case Work(c) => HandlerStarts(s, Worker, c, k);
    case Cast(id) => CastStarts(s, id, k);
    case Halt(id) => StopUndisturbed(s, id);
  }

  lemma AddStaysRemoved(s: State, k: nat)
    requires Adding(s.acc) && |s.heap| <= IDS && Removed(s, k)
    ensures Removed(AddNewSession(s, Accepter), k)
  {
  }

  lemma EraseStaysRemoved(s: State, t: Thread, k: nat)
    requires Removing(PcOf(s, t)) && Removed(s, k)
    ensures Removed(RemoveSession(s, t), k)
  {
  }

  lemma HandlerStaysRemoved(s: State, t: Thread, c: Choice, k: nat)
    requires Handler(t) && HandlerEnabled(s, t, c) && Shape(s) && |s.heap| <= IDS && Removed(s, k)
    ensures Removed(HandlerStep(s, t, c), k)
  {
    if Adding(PcOf(s, t)) {
      AddStaysRemoved(s, k);
    } else if Removing(PcOf(s, t)) {
      EraseStaysRemoved(s, t, k);
    } else {
      if ChangesSession(PcOf(s, t), c) {
        var _ := SessionStep(s, t, c);
      } else {
        QuietStep(s, t, c);
      }
      hide HandlerStep;
    }
  }

  lemma CastStaysRemoved(s: State, id: nat, k: nat)
    requires CastEnabled(s, id) && Removed(s, k)
    ensures Removed(CastStep(s, id), k)
  {
    hide SendResponse, CopiesOf;
    match s.cast
    case CastRecheck =>
    case CastScan(_) =>
    case CastSessionLock(_, _) =>
    case CastSend(_, _) =>
    case CastSessionUnlock(_, _) =>
    case _ =>
  }

  lemma StaysRemoved(s: State, a: Action, k: nat)
    requires Shape(s) && |s.heap| <= IDS && Enabled(s, a) && Removed(s, k)
    ensures Removed(Step(s, a), k)
  {
    hide HandlerStep, CastStep, StopStep;
    match a
    case Accept(c) => HandlerStaysRemoved(s, Accepter, c, k);
    case Work(c) => HandlerStaysRemoved(s, Worker, c, k);
    case Cast(id) => CastStaysRemoved(s, id, k);
    case Halt(id) => StopUndisturbed(s, id);
  }

  /** Once a session has left the map it never comes back, and no read or write is ever started on it again, even if
      the accepter or the worker is still at work on it. */
  lemma {:induction false} NothingAfterRemoval(s: State, run: seq<Action>, t: State, k: nat)
    requires Inv(s) && Removed(s, k) && Leads(s, run, t) && |t.heap| <= IDS
    ensures Removed(t, k) && SameOutput(s.heap[k], t.heap[k])
    decreases |run|
  {
    if run != [] {
      var u := Step(s, run[0]);
      SessionsStay(s, run[0]);
      HeapGrows(u, run[1..], t);
      StepInv(s, run[0]);
      StaysRemoved(s, run[0], k);
      StartedOnlyInMap(s, run[0], k);
      NothingAfterRemoval(u, run[1..], t, k);
    }
  }

  /** The same for a session removed in any state of any run. */
  lemma RemovedForGood(s: State, run: seq<Action>, t: State, k: nat)
    requires Reached(s) && Removed(s, k) && Leads(s, run, t) && |t.heap| <= IDS
    ensures Removed(t, k) && SameOutput(s.heap[k], t.heap[k])
  {
    ReachedInv(s);
    NothingAfterRemoval(s, run, t, k);
  }

  // ----- tags and routing

  /** The session map as the code sees it: what `GetSession` finds under the id read out of a tag. */
  function Resolve(s: State, op: Op): Found {
    Lookup(s.table, Detagify(TagOf(op)).0)
  }

  /** The operation is in a queue, or a thread has taken it out and has not acted upon it yet. */
  predicate UnderWay(s: State, op: Op) {
    op in s.conn || op in s.readWrite || InHand(s.acc, op) || InHand(s.wrk, op)
  }

  /** In every run, every operation in a queue or in the hands of a thread carries a tag that tells its owner and event
      apart from all others; the tag resolves to the owner or to nothing; and the tag of a request for a connection
      resolves to its owner, although the request is issued before the session is entered in the map. */
  lemma TagsResolve(s: State, op: Op)
    requires Reached(s) && UnderWay(s, op)
    ensures Detagify(TagOf(op)) == (op.owner, op.event)
    ensures Resolve(s, op) == Object(op.owner) || Resolve(s, op) == Missing
    ensures op.event.Connected? && !s.acc.AddInsert? ==> Resolve(s, op) == Object(op.owner)
    ensures forall other :: UnderWay(s, other) && TagOf(other) == TagOf(op) ==> other == op
  {
    ReachedInv(s);
    TagTells(op);
    assert Each(s, op.owner);
    forall other | UnderWay(s, other) && TagOf(other) == TagOf(op) ensures other == op {
      TagTells(other);
    }
  }

  /** What the two threads have looked up is the session that started the operation, or nothing if that has left the
      map; the accepter always finds it. */
  lemma LookupsFindOwner(s: State)
    requires Reached(s)
    ensures s.acc.GetUnlock? ==> s.acc.found == Object(s.acc.op.owner)
    ensures s.wrk.GetUnlock? ==>
      s.wrk.found == if s.wrk.op.owner in s.table then Object(s.wrk.op.owner) else Missing
  {
    hide Each;
    ReachedInv(s);
  }

  /** A failed completion takes the session that started the operation, and no other, out of the map. */
  lemma ErasesOwner(s: State, t: Thread)
    requires Reached(s) && Handler(t) && PcOf(s, t).RemoveErase?
    ensures var k := PcOf(s, t).op.owner;
      && k in s.table && HandlerStep(s, t, Go).table == s.table - {k}
  {
    hide Detagify, TagOf, LocksMatch, Balanced, HistoryOk;
    ReachedInv(s);
    TagTells(PcOf(s, t).op);
    if t.Accepter? {
      assert Each(s, s.acc.op.owner);
    }
  }

  predicate Waiting(s: State, id: nat)
    requires id in s.table
  {
    At(s, s.table[id]).status.WaitToConnect?
  }

  /** In every run: no assertion fails; the accepter only ever lets a session process a connect event, and the worker a
      completed read or write, each on the session that started the operation; and at most one session of the map waits
      for a connection. */
  lemma Routing(s: State)
    requires Reached(s)
    ensures !s.acc.AssertFailed? && !s.wrk.AssertFailed?
    ensures s.acc.Process? ==> Detagify(TagOf(s.acc.op)) == (s.acc.k, Connected) && s.acc.k == s.acc.op.owner
    ensures s.wrk.Process? ==>
      Detagify(TagOf(s.wrk.op)) in {(s.wrk.k, ReadDone), (s.wrk.k, WriteDone)} && s.wrk.k == s.wrk.op.owner
    ensures forall i, j | i in s.table && j in s.table && Waiting(s, i) && Waiting(s, j) :: i == j
  {
    ReachedInv(s);
    if s.acc.Process? {
      TagTells(s.acc.op);
    }
    if s.wrk.Process? {
      TagTells(s.wrk.op);
    }
    forall i | i in s.table && Waiting(s, i) ensures i == |s.heap| - 1 {
      assert Each(s, i);
    }
  }

  // ----- the broadcast round

  /** The broadcaster is between the start of a round and the release of the map. */
  predicate InRound(s: State) {
    s.cast.CastScan? || s.cast.CastSessionLock? || s.cast.CastSend? || s.cast.CastSessionUnlock?
    || s.cast == CastUnlock(false)
  }

  /** `run` leads from `s` to `t` within one round. */
  predicate WithinRound(s: State, run: seq<Action>, t: State)
    decreases |run|
  {
    InRound(s) &&
    if run == [] then s == t else Enabled(s, run[0]) && WithinRound(Step(s, run[0]), run[1..], t)
  }

  predicate SameRound(s: State, t: State) {
    && t.table == s.table && t.round.base == s.round.base
    && (forall i :: i in s.round.visited ==> i in t.round.visited && t.round.visited[i] == s.round.visited[i])
  }

  // The session that the action visits, if any.
  predicate Visits(s: State, a: Action, k: nat) {
    a.Cast? && s.cast.CastSend? && s.cast.k == k
  }

  /** How often session `k` is visited along `run`. */
  function VisitsIn(s: State, run: seq<Action>, k: nat): nat
    decreases |run|
  {
    if run == [] || !Enabled(s, run[0]) then 0
    else (if Visits(s, run[0], k) then 1 else 0) + VisitsIn(Step(s, run[0]), run[1..], k)
  }

  lemma HandlerInRound(s: State, t: Thread, c: Choice)
    requires Handler(t) && HandlerEnabled(s, t, c) && LocksMatch(s) && InRound(s)
    ensures CastAside(s, HandlerStep(s, t, c))
  {
    if ChangesSession(PcOf(s, t), c) {
      var _ := SessionStep(s, t, c);
    } else if !ChangesMap(PcOf(s, t)) {
      QuietStep(s, t, c);
    }
  }

  lemma CastInRound(s: State, id: nat)
    requires CastEnabled(s, id) && InRound(s) && !s.cast.CastSend?
    ensures CastStep(s, id).round == s.round && CastStep(s, id).table == s.table
  {
    match s.cast
    case CastScan(_) =>
    case CastSessionLock(_, _) =>
    case CastSessionUnlock(_, _) =>
    case _ =>
  }

  lemma CastSendInRound(s: State, id: nat)
    requires RoundOk(s) && s.cast.CastSend?
    ensures SameRound(s, CastStep(s, id)) && s.cast.k !in s.round.visited
    ensures CastStep(s, id).round.visited.Keys == s.round.visited.Keys + {s.cast.k}
  {
  }

  lemma StepInRound(s: State, a: Action)
    requires Inv(s) && Enabled(s, a) && InRound(s) && InRound(Step(s, a))
    ensures SameRound(s, Step(s, a))
    ensures forall k: nat :: k in Step(s, a).round.visited <==> k in s.round.visited || Visits(s, a, k)
    ensures forall k: nat :: Visits(s, a, k) ==> k !in s.round.visited
  {
    match a
    case Accept(c) => HandlerInRound(s, Accepter, c);
    case Work(c) => HandlerInRound(s, Worker, c);
    case Cast(id) =>
      if s.cast.CastSend? {
        CastSendInRound(s, id);
      } else {
        CastInRound(s, id);
      }
    case Halt(id) => StopUndisturbed(s, id);
  }

  /** During one round, whatever the other threads do, the map stays the same, and what was noted about a session
      visited stays as it is. */
  lemma {:induction false} RoundFreezesMap(s: State, run: seq<Action>, t: State)
    requires Inv(s) && WithinRound(s, run, t) && |t.heap| <= IDS
    ensures Leads(s, run, t) && Inv(t)
    ensures SameRound(s, t)
    decreases |run|
  {
    if run != [] {
      var u := Step(s, run[0]);
      WithinLeads(u, run[1..], t);
      WithinStarts(u, run[1..], t);
      HeapGrows(u, run[1..], t);
      SessionsStay(s, run[0]);
      StepInv(s, run[0]);
      StepInRound(s, run[0]);
      RoundFreezesMap(u, run[1..], t);
    }
  }

  /** No session is visited twice in a round: those visited along `run` are those newly visited at its end, each of
      them once. */
  lemma {:induction false} VisitedOnce(s: State, run: seq<Action>, t: State, k: nat)
    requires Inv(s) && WithinRound(s, run, t) && |t.heap| <= IDS
    ensures VisitsIn(s, run, k) == if k in t.round.visited && k !in s.round.visited then 1 else 0
    decreases |run|
  {
    if run != [] {
      var u := Step(s, run[0]);
      WithinLeads(u, run[1..], t);
      WithinStarts(u, run[1..], t);
      HeapGrows(u, run[1..], t);
      SessionsStay(s, run[0]);
      StepInv(s, run[0]);
      StepInRound(s, run[0]);
      RoundFreezesMap(u, run[1..], t);
      VisitedOnce(u, run[1..], t, k);
    }
  }

  lemma WithinStarts(s: State, run: seq<Action>, t: State)
    requires WithinRound(s, run, t)
    ensures InRound(s)
  {
  }

  lemma {:induction false} WithinLeads(s: State, run: seq<Action>, t: State)
    requires WithinRound(s, run, t)
    ensures Leads(s, run, t) && InRound(t)
    decreases |run|
  {
    if run != [] {
      WithinLeads(Step(s, run[0]), run[1..], t);
    }
  }

  lemma RoundCounts(s: State, id: nat)
    requires Inv(s) && InRound(s) && id in s.table
    ensures id < |s.heap| && id in s.round.base && CopyKept(s, id)
    ensures s.cast == CastUnlock(false) ==> s.round.visited.Keys == s.table.Keys
  {
    hide LocksMatch, Each, CopyKept;
  }

  /** From the start of a round to its end, under any interleaving: every session of the map is visited once; one that
      was connected when visited has taken on exactly one more copy, and one that was waiting none. */
  lemma BroadcastRound(s: State, run: seq<Action>, t: State, id: nat)
    requires Reached(s) && s.cast == CastScan(s.table.Keys) && s.round.visited == map[]
    requires WithinRound(s, run, t) && |t.heap| <= IDS && t.cast == CastUnlock(false)
    requires id in s.table
    ensures t.table == s.table && t.round.visited.Keys == s.table.Keys && VisitsIn(s, run, id) == 1
    ensures id < |s.heap| && id < |t.heap|
    ensures Copies(t.heap[id].log.accepted)
              == Copies(s.heap[id].log.accepted) + if t.round.visited[id] then 1 else 0
  {
    hide Inv, InRound, CastEnabled, Step, Copies;
    ReachedInv(s);
    WithinStarts(s, run, t);
    WithinLeads(s, run, t);
    RoundFreezesMap(s, run, t);
    VisitedOnce(s, run, t, id);
    RoundCounts(s, id);
    RoundCounts(t, id);
  }

  /** A visit hands the copy to a connected session and leaves a waiting one alone. */
  lemma Visit(s: State, id: nat)
    requires Reached(s) && s.cast.CastSend?
    ensures var k := s.cast.k;
      && k in s.table && k !in s.round.visited && k < |s.heap|
      && var t := CastStep(s, id);
         && t.round.visited == s.round.visited[k := !s.heap[k].status.WaitToConnect?]
         && (s.heap[k].status.WaitToConnect? ==> t.heap == s.heap && t.readWrite == s.readWrite)
         && (!s.heap[k].status.WaitToConnect? ==> t.heap[k].log.accepted == s.heap[k].log.accepted + [Broadcast])
  {
    ReachedInv(s);
    var k := s.cast.k;
    if !s.heap[k].status.WaitToConnect? {
      SendAppends(s.heap[k], Broadcast);
    }
  }
}
