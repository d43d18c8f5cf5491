/** The threads of a running server go on: none of them has left its loop, the broadcaster on its own sends one round
    after the other, and the worker on its own answers a completed read. */
module ServerProgress {
  import opened Tags
  import opened Sessions
  import opened Server
  import opened ServerInvariant
  import opened ServerSteps
  import opened ServerTheorems
  import opened ServerLiveness

  // ----- nobody leaves early

  predicate Up(s: State) {
    s.running ==> !s.acc.Exit? && !s.wrk.Exit? && !s.cast.CastExit? && s.cast != CastUnlock(true)
  }

  lemma AwaitUp(s: State, t: Thread, c: Choice)
    requires Handler(t) && s.running && !PcOf(s, t).Exit? && (PcOf(s, t).LoopCheck? || PcOf(s, t).Poll?)
    ensures !PcOf(Await(s, t, c), t).Exit?
  {
    hide Receive;
  }

  lemma TableUp(s: State, t: Thread)
    requires Handler(t)
    ensures Adding(PcOf(s, t)) ==> !PcOf(AddNewSession(s, t), t).Exit?
    ensures Removing(PcOf(s, t)) ==> !PcOf(RemoveSession(s, t), t).Exit?
  {
    hide Detagify, TagOf;
  }

  lemma SessionUp(s: State, t: Thread)
    requires Handler(t)
    ensures Getting(PcOf(s, t)) ==> !PcOf(GetSession(s, t), t).Exit?
    ensures Processing(PcOf(s, t)) ==> !PcOf(ProcessEvent(s, t), t).Exit?
  {
    hide Lookup, Detagify, TagOf, FirstHalf, SecondHalf, Apply, SetMutex;
  }

  lemma HandlerUp(s: State, t: Thread, c: Choice)
    requires Handler(t) && s.running && HandlerEnabled(s, t, c)
    ensures !PcOf(HandlerStep(s, t, c), t).Exit?
  {
    hide AddNewSession, GetSession, RemoveSession, ProcessEvent, Await;
    TableUp(s, t);
    SessionUp(s, t);
    if PcOf(s, t).LoopCheck? || PcOf(s, t).Poll? {
      AwaitUp(s, t, c);
    }
  }

  lemma TableChangeCast(s: State, t: Thread, c: Choice)
    requires ChangesMap(PcOf(s, t))
    ensures HandlerStep(s, t, c).cast == s.cast
  {
  }

  lemma HandlerCast(s: State, t: Thread, c: Choice)
    requires HandlerEnabled(s, t, c)
    ensures HandlerStep(s, t, c).cast == s.cast
  {
    if ChangesMap(PcOf(s, t)) {
      TableChangeCast(s, t, c);
    } else if ChangesSession(PcOf(s, t), c) {
      var _ := SessionStep(s, t, c);
    } else {
      QuietStep(s, t, c);
    }
  }

  lemma CastUp(s: State, id: nat)
    requires s.running && CastEnabled(s, id) && s.cast != CastUnlock(true)
    ensures !CastStep(s, id).cast.CastExit? && CastStep(s, id).cast != CastUnlock(true)
  {
    hide SendResponse, CopiesOf, Apply, SetMutex;
  }

  lemma StepUp(s: State, a: Action)
    requires Shape(s) && Up(s) && Enabled(s, a)
    ensures Up(Step(s, a))
  {
    hide HandlerStep, CastStep, StopStep;
    match a
    case Accept(c) =>
      HandlerFlags(s, Accepter, c);
      HandlerCast(s, Accepter, c);
      if s.running {
        HandlerUp(s, Accepter, c);
      }
    case Work(c) =>
      HandlerFlags(s, Worker, c);
      HandlerCast(s, Worker, c);
      if s.running {
        HandlerUp(s, Worker, c);
      }
    case Cast(id) =>
      CastFlags(s, id);
      if s.running {
        CastUp(s, id);
      }
    case Halt(id) => StopUndisturbed(s, id);
  }

  lemma {:induction false} RunUp(s: State, run: seq<Action>, t: State)
    requires Inv(s) && Up(s) && Leads(s, run, t) && |t.heap| <= IDS
    ensures Up(t)
    decreases |run|
  {
    if run != [] {
      hide Up;
      var u := Step(s, run[0]);
      SessionsStay(s, run[0]);
      HeapGrows(u, run[1..], t);
      StepInv(s, run[0]);
      StepUp(s, run[0]);
      RunUp(u, run[1..], t);
    }
  }

  /** While the server is running, no thread has left its loop, and the broadcaster is not about to. */
  lemma RunsOn(s: State)
    requires Reached(s) && s.running
    ensures !s.acc.Exit? && !s.wrk.Exit? && !s.cast.CastExit? && s.cast != CastUnlock(true)
  {
    ReachedInv(INITIAL) by {
      assert Leads(INITIAL, [], INITIAL);
    }
    var run :| Leads(INITIAL, run, s);
    RunUp(INITIAL, run, s);
  }

  // ----- a thread on its own

  predicate OnlyBy(t: Thread, run: seq<Action>) {
    forall i :: 0 <= i < |run| ==> ThreadOf(run[i]) == t
  }

  /** The steps of thread `t` alone lead from `s` to `u`. */
  ghost predicate Alone(t: Thread, s: State, u: State) {
    exists run :: OnlyBy(t, run) && Leads(s, run, u)
  }

  lemma {:induction false} LeadsJoin(s: State, a: seq<Action>, t: State, b: seq<Action>, u: State)
    requires Leads(s, a, t) && Leads(t, b, u)
    ensures Leads(s, a + b, u)
    decreases |a|
  {
    hide Enabled, Step;
    if a == [] {
      assert a + b == b;
    } else {
      LeadsJoin(Step(s, a[0]), a[1..], t, b, u);
      assert (a + b)[1..] == a[1..] + b;
    }
  }

  lemma AloneJoin(t: Thread, s: State, u: State, v: State)
    requires Alone(t, s, u) && Alone(t, u, v)
    ensures Alone(t, s, v)
  {
    var a :| OnlyBy(t, a) && Leads(s, a, u);
    var b :| OnlyBy(t, b) && Leads(u, b, v);
    LeadsJoin(s, a, u, b, v);
    assert OnlyBy(t, a + b);
  }

  lemma AloneOne(s: State, a: Action)
    requires Enabled(s, a)
    ensures Alone(ThreadOf(a), s, Step(s, a))
  {
    var run := [a];
    assert run[1..] == [];
    assert OnlyBy(ThreadOf(a), run) && Leads(s, run, Step(s, a));
  }

  lemma AloneNext(s: State, u: State, a: Action)
    requires Alone(ThreadOf(a), s, u) && Enabled(u, a)
    ensures Alone(ThreadOf(a), s, Step(u, a))
  {
    AloneOne(u, a);
    AloneJoin(ThreadOf(a), s, u, Step(u, a));
  }

  lemma AloneReached(t: Thread, s: State, u: State)
    requires Reached(s) && Alone(t, s, u) && |u.heap| <= IDS
    ensures Reached(u)
  {
    var first :| Leads(INITIAL, first, s);
    var run :| OnlyBy(t, run) && Leads(s, run, u);
    LeadsJoin(INITIAL, first, s, run, u);
  }

  // ----- the broadcaster

  function RoundStart(s: State): State {
    s.(readers := s.readers + {Broadcaster}, cast := CastScan(s.table.Keys),
       round := Round(map i | i in s.table :: CopiesOf(s, i), map[]))
  }

  /** From every running state between two rounds in which the map can be read, the broadcaster's own steps lead to the
      start of a round over the whole map, with nothing visited. */
  lemma RoundStarts(s: State)
    requires s.running && s.cast.CastCheck? && CanRead(s)
    ensures Alone(Broadcaster, s, RoundStart(s))
    ensures RoundStart(s).cast == CastScan(s.table.Keys) && RoundStart(s).round.visited == map[]
    ensures Reached(s) ==> Reached(RoundStart(s))
  {
    hide CopiesOf, Alone;
    AloneOne(s, Cast(0));
    var s1 := s.(cast := CastLock);
    AloneNext(s, s1, Cast(0));
    var s2 := s1.(readers := s.readers + {Broadcaster}, cast := CastRecheck);
    AloneNext(s, s2, Cast(0));
    SameStart(s, s2);
    if Reached(s) {
      AloneReached(Broadcaster, s, RoundStart(s));
    }
  }

  lemma SameStart(s: State, t: State)
    requires t.table == s.table && t.heap == s.heap
    ensures forall i :: CopiesOf(s, i) == CopiesOf(t, i)
    ensures (map i | i in s.table :: CopiesOf(s, i)) == (map i | i in t.table :: CopiesOf(t, i))
  {
  }

  // The state after session `id` was visited.
  function Visited(s: State, id: nat): State
    requires s.cast.CastScan? && id < |s.heap|
  {
    var connected := !s.heap[id].status.WaitToConnect?;
    Apply(s, id, SendResponse(s.heap[id], Broadcast))
      .(cast := CastScan(s.cast.todo - {id}), round := s.round.(visited := s.round.visited[id := connected]))
  }

  lemma VisitTakesLock(s: State, id: nat)
    requires TableOk(s) && s.cast.CastScan? && id in s.cast.todo && id in s.table && Free(s, id)
    ensures Alone(Broadcaster, s, s.(mutexes := s.mutexes[id := By(Broadcaster)],
                                     cast := CastSend(s.cast.todo - {id}, id)))
  {
    hide Alone;
    AloneOne(s, Cast(id));
    AloneNext(s, s.(cast := CastSessionLock(s.cast.todo - {id}, id)), Cast(0));
  }

  lemma VisitRuns(s: State, id: nat)
    requires TableOk(s) && s.cast.CastScan? && id in s.cast.todo && id in s.table && Free(s, id)
    ensures Alone(Broadcaster, s, Visited(s, id))
  {
    hide Alone, SendResponse;
    VisitTakesLock(s, id);
    var s1 := s.(mutexes := s.mutexes[id := By(Broadcaster)], cast := CastSend(s.cast.todo - {id}, id));
    AloneNext(s, s1, Cast(0));
    var s2 := CastStep(s1, 0);
    AloneNext(s, s2, Cast(0));
    assert s1.mutexes[id := Nobody] == s.mutexes;
  }

  // What one session took on between `s` and `t`, in which the sessions of `sent` were visited.
  predicate TookOn(s: State, t: State, k: nat, sent: set<nat>) {
    && k < |s.heap| == |t.heap|
    && (t.heap[k].status.WaitToConnect? <==> s.heap[k].status.WaitToConnect?)
    && t.heap[k].log.accepted
         == s.heap[k].log.accepted + if k in sent && !s.heap[k].status.WaitToConnect? then [Broadcast] else []
  }

  // The sessions of `todo`, and no others, were visited between `s` and `t`.
  predicate SentTo(s: State, t: State, todo: set<nat>) {
    && t.table == s.table && t.mutexes == s.mutexes && t.readers == s.readers && t.writer == s.writer
    && |t.heap| == |s.heap|
    && forall k: nat :: k < |s.heap| ==> TookOn(s, t, k, todo)
  }

  lemma VisitSends(s: State, id: nat)
    requires s.cast.CastScan? && id < |s.heap|
    ensures SentTo(s, Visited(s, id), {id})
  {
    var t := Visited(s, id);
    forall k: nat | k < |s.heap| ensures TookOn(s, t, k, {id}) {
      if !s.heap[id].status.WaitToConnect? {
        SendAppends(s.heap[id], Broadcast);
      }
      assert s.heap[k].log.accepted + [] == s.heap[k].log.accepted;
    }
  }

  lemma SentJoin(s: State, t: State, u: State, id: nat, todo: set<nat>)
    requires SentTo(s, t, {id}) && SentTo(t, u, todo - {id}) && id in todo
    ensures SentTo(s, u, todo)
  {
    forall k: nat | k < |s.heap| ensures TookOn(s, u, k, todo) {
      assert TookOn(s, t, k, {id}) && TookOn(t, u, k, todo - {id});
    }
  }

  predicate Ready(s: State, todo: set<nat>) {
    && TableOk(s) && s.cast == CastScan(todo) && todo <= s.table.Keys
    && forall k :: k in todo ==> Free(s, k)
  }

  lemma VisitReady(s: State, todo: set<nat>, id: nat)
    requires Ready(s, todo) && id in todo
    ensures id < |s.heap| && Ready(Visited(s, id), todo - {id})
  {
    hide SendResponse;
  }

  lemma {:induction false} RoundRuns(s: State, todo: set<nat>) returns (t: State)
    requires Ready(s, todo)
    ensures Alone(Broadcaster, s, t) && t.cast == CastScan({}) && SentTo(s, t, todo)
    decreases |todo|
  {
    hide Alone, SentTo, Visited, TableOk;
    if todo == {} {
      t := s;
      NothingSent(s);
    } else {
      var id :| id in todo;
      VisitReady(s, todo, id);
      var u := Visited(s, id);
      VisitRuns(s, id);
      VisitSends(s, id);
      t := RoundRuns(u, todo - {id});
      AloneJoin(Broadcaster, s, u, t);
      SentJoin(s, u, t, id, todo);
    }
  }

  lemma NothingSent(s: State)
    ensures Alone(Broadcaster, s, s) && SentTo(s, s, {})
  {
    var run: seq<Action> := [];
    assert OnlyBy(Broadcaster, run) && Leads(s, run, s);
    forall k: nat | k < |s.heap| ensures TookOn(s, s, k, {}) {
      assert s.heap[k].log.accepted + [] == s.heap[k].log.accepted;
    }
  }

  lemma RoundEnds(s: State)
    requires s.cast == CastScan({})
    ensures Alone(Broadcaster, s, s.(readers := s.readers - {Broadcaster}, cast := CastCheck))
  {
    hide Alone;
    AloneOne(s, Cast(0));
    AloneNext(s, s.(cast := CastUnlock(false)), Cast(0));
  }

  /** From every running state between two rounds in which the broadcaster finds its locks free, its own steps lead
      through a whole round to the next: every connected session of the map, and no other, has taken on one copy. */
  lemma BroadcastGoesOut(s: State) returns (t: State)
    requires Reached(s) && s.running && s.cast.CastCheck? && CanRead(s) && forall k :: k in s.table ==> Free(s, k)
    ensures Alone(Broadcaster, s, t) && t.cast.CastCheck? && t.table == s.table
    ensures SentTo(s, t, s.table.Keys)
  {
    hide Alone, Each;
    ReachedInv(s);
    RoundStarts(s);
    var u := RoundStart(s);
    var v := RoundRuns(u, s.table.Keys);
    RoundEnds(v);
    t := v.(readers := v.readers - {Broadcaster}, cast := CastCheck);
    AloneJoin(Broadcaster, s, u, v);
    AloneJoin(Broadcaster, s, v, t);
    assert s.readers + {Broadcaster} - {Broadcaster} == s.readers;
    forall k: nat | k < |s.heap| ensures TookOn(s, t, k, s.table.Keys) {
      assert TookOn(u, v, k, s.table.Keys);
    }
  }

  // ----- the worker

  // The worker was handed a completed read that brought `name`, and has found the session.
  function ReadFound(s: State, k: nat, name: string): State
    requires k < |s.heap|
  {
    s.(readWrite := s.readWrite - multiset{Op(k, ReadDone)}, heap := s.heap[k := Receive(s.heap[k], name)],
       wrk := SessionLock(Op(k, ReadDone), k))
  }

  lemma ReadTaken(s: State, k: nat, name: string)
    requires k < |s.heap| && s.wrk.Poll? && Op(k, ReadDone) in s.readWrite
    ensures Alone(Worker, s, ReadFound(s, k, name).(wrk := GetLock(Op(k, ReadDone), true)))
  {
    hide Alone, Receive;
    AloneOne(s, Work(Deliver(Op(k, ReadDone), true, name)));
  }

  lemma SessionFound(s: State, op: Op)
    requires TableOk(s) && s.wrk == GetLock(op, true) && CanRead(s) && Worker !in s.readers
    requires op.owner in s.table && Detagify(TagOf(op)) == (op.owner, op.event) && op.event.ReadDone?
    ensures Alone(Worker, s, s.(wrk := SessionLock(op, op.owner)))
  {
    hide Alone, Detagify, TagOf;
    AloneOne(s, Work(Go));
    var s1 := s.(readers := s.readers + {Worker}, wrk := GetFind(op, true));
    AloneNext(s, s1, Work(Go));
    var s2 := s1.(wrk := GetUnlock(op, true, Object(op.owner)));
    AloneNext(s, s2, Work(Go));
    assert s.readers + {Worker} - {Worker} == s.readers;
  }

  // The worker has answered a read of session `k`, and started the next one.
  function Replied(s: State, k: nat): State
    requires k < |s.heap|
  {
    var (x, effect) := FirstHalf(s.heap[k], ReadDone);
    var u := Apply(s, k, (x, effect));
    Apply(u, k, Read(x)).(wrk := Poll)
  }

  lemma ReplyFirst(s: State, op: Op)
    requires s.wrk == SessionLock(op, op.owner) && op.owner < |s.heap| == |s.mutexes| && s.mutexes[op.owner].Nobody?
    requires Detagify(TagOf(op)).1 == ReadDone
    ensures var k := op.owner;
      Alone(Worker, s, Apply(s, k, FirstHalf(s.heap[k], ReadDone))
                         .(mutexes := s.mutexes[k := By(Worker)], wrk := ProcessRest(op, k)))
  {
    hide Alone, Detagify, TagOf, FirstHalf;
    var k := op.owner;
    AloneOne(s, Work(Go));
    AloneNext(s, s.(mutexes := s.mutexes[k := By(Worker)], wrk := Process(op, k)), Work(Go));
  }

  lemma ReplyRest(s: State, op: Op)
    requires s.wrk == ProcessRest(op, op.owner) && op.owner < |s.heap| == |s.mutexes|
    requires Detagify(TagOf(op)).1 == ReadDone
    ensures var k := op.owner;
      Alone(Worker, s, Apply(s, k, Read(s.heap[k])).(mutexes := s.mutexes[k := Nobody], wrk := Poll))
  {
    hide Alone, Detagify, TagOf;
    var k := op.owner;
    AloneOne(s, Work(Go));
    AloneNext(s, Apply(s, k, Read(s.heap[k])).(wrk := SessionUnlock(op, k)), Work(Go));
  }

  lemma ReplyRuns(s: State, op: Op)
    requires s.wrk == SessionLock(op, op.owner) && op.owner < |s.heap| == |s.mutexes| && s.mutexes[op.owner].Nobody?
    requires Detagify(TagOf(op)).1 == ReadDone
    ensures Alone(Worker, s, Replied(s, op.owner))
  {
    hide Alone, Detagify, TagOf, FirstHalf;
    var k := op.owner;
    var u := Apply(s, k, FirstHalf(s.heap[k], ReadDone))
               .(mutexes := s.mutexes[k := By(Worker)], wrk := ProcessRest(op, k));
    ReplyFirst(s, op);
    ReplyRest(u, op);
    assert s.mutexes[k := By(Worker)][k := Nobody] == s.mutexes;
    AloneJoin(Worker, s, u, Replied(s, k));
  }

  // A session of the map with a read under way is connected, or the accepter holds its mutex.
  lemma ReadConnected(s: State, k: nat)
    requires Core(s) && k in s.table && Op(k, ReadDone) in s.readWrite && Free(s, k)
    ensures !s.heap[k].status.WaitToConnect?
  {
    assert Each(s, k);
  }

  lemma ReplySends(s: State, k: nat)
    requires k < |s.heap| && !s.heap[k].status.WaitToConnect?
    ensures var t := Replied(s, k);
      && |t.heap| == |s.heap| && t.heap == s.heap[k := t.heap[k]] && Op(k, ReadDone) in t.readWrite
      && t.wrk.Poll? && t.table == s.table
      && t.heap[k].log.accepted == s.heap[k].log.accepted + [Hello(s.heap[k].request)]
      && t.heap[k].log.answered == s.heap[k].log.answered + [s.heap[k].request]
  {
  }

  /** From every reached state in which the worker waits, a read of a session of the map has completed and the locks are
      free, the worker's own steps lead to where it waits again: the reply has been taken on, the next read is under
      way, and no other session has changed. */
  lemma ReplyGoesOut(s: State, k: nat, name: string) returns (t: State)
    requires Reached(s) && s.wrk.Poll? && k in s.table && Op(k, ReadDone) in s.readWrite && CanRead(s) && Free(s, k)
    ensures Alone(Worker, s, t) && t.wrk.Poll? && t.table == s.table
    ensures k < |s.heap| == |t.heap| && t.heap == s.heap[k := t.heap[k]] && Op(k, ReadDone) in t.readWrite
    ensures t.heap[k].log.accepted == s.heap[k].log.accepted + [Hello(name)]
    ensures t.heap[k].log.answered == s.heap[k].log.answered + [name]
  {
    hide Alone, Detagify, TagOf, Replied, Each, FlagsOk, QueuesOk, AccepterOk, WorkerOk, RoundOk, StopOk;
    ReachedInv(s);
    ReadConnected(s, k);
    var op := Op(k, ReadDone);
    TagTells(op);
    ReadTaken(s, k, name);
    var u := ReadFound(s, k, name);
    SessionFound(u.(wrk := GetLock(op, true)), op);
    AloneJoin(Worker, s, u.(wrk := GetLock(op, true)), u);
    ReplyRuns(u, op);
    t := Replied(u, k);
    AloneJoin(Worker, s, u, t);
    ReplySends(u, k);
  }
}
