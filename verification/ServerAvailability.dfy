/** How long the asynchronous server goes on accepting connections: until the first accept that fails. */
module ServerAvailability {
  import opened Tags
  import opened Sessions
  import opened Server
  import opened ServerInvariant
  import opened ServerSteps
  import opened ServerTheorems
  import opened ServerLiveness
  import opened ServerBound

  /** An accept is under way, or one that went well is being handled, or one is about to be made. */
  predicate Accepting(s: State) {
    match s.acc
    case AddInsert => s.conn != multiset{}
    case AddUnlock => s.conn != multiset{}
    case Poll => s.conn != multiset{}
    case GetLock(_, ok) => ok
    case GetFind(_, ok) => ok
    case GetUnlock(_, ok, _) => ok
    case RemoveLock(_) => false
    case RemoveErase(_) => false
    case RemoveUnlock => false
    case AssertFailed => false
    case Exit => false
    case _ => true
  }

  /** No accept is under way, and the accepter is on its way back to waiting for one. */
  predicate Deaf(s: State) {
    s.conn == multiset{} && match s.acc {
      case GetLock(_, ok) => !ok
      case GetFind(_, ok) => !ok
      case GetUnlock(_, ok, _) => !ok
      case RemoveLock(_) => true
      case RemoveErase(_) => true
      case RemoveUnlock => true
      case Poll => true
      case _ => false
    }
  }

  // An accept completes, and has failed.
  predicate Refuses(a: Action) {
    a.Accept? && a.c.Deliver? && !a.c.ok
  }

  predicate Refused(run: seq<Action>) {
    exists i :: 0 <= i < |run| && Refuses(run[i])
  }

  predicate Carries(s: State, u: State, refuses: bool) {
    && (Accepting(s) ==> if refuses then Deaf(u) else Accepting(u))
    && (Deaf(s) ==> Deaf(u) && |u.heap| == |s.heap|)
  }

  // ----- one step

  lemma AddCarries(s: State)
    requires Adding(s.acc)
    ensures Carries(s, AddNewSession(s, Accepter), false)
  {
  }

  lemma GetCarries(s: State)
    requires Getting(s.acc) && Shape(s) && |s.heap| <= IDS
    ensures Carries(s, GetSession(s, Accepter), false)
  {
    hide Detagify, TagOf, Lookup, TableOk, QueuesOk, WorkerOk;
    TagTells(s.acc.op);
  }

  lemma RemoveCarries(s: State)
    requires Removing(s.acc)
    ensures Carries(s, RemoveSession(s, Accepter), false)
  {
    hide Detagify, TagOf;
  }

  lemma ProcessCarries(s: State)
    requires Processing(s.acc)
    ensures Carries(s, ProcessEvent(s, Accepter), false)
  {
    hide Detagify, TagOf, FirstHalf, SecondHalf, Apply, SetMutex;
  }

  // There is only ever one request for a connection.
  lemma OneAccept(s: State, op: Op)
    requires Core(s) && op in s.conn
    ensures s.conn - multiset{op} == multiset{}
  {
    forall other | other in s.conn ensures other == op && s.conn[other] == 1 {
      assert Each(s, other.owner) && Each(s, op.owner);
    }
  }

  lemma AwaitCarries(s: State, c: Choice)
    requires Core(s) && s.running && HandlerEnabled(s, Accepter, c) && (s.acc.LoopCheck? || s.acc.Poll?)
    ensures Carries(s, Await(s, Accepter, c), Refuses(Accept(c)))
  {
    hide Each, Receive;
    if s.acc.Poll? && c.Deliver? {
      OneAccept(s, c.op);
    }
  }

  lemma AccepterCarries(s: State, c: Choice)
    requires Core(s) && |s.heap| <= IDS && s.running && HandlerEnabled(s, Accepter, c)
    ensures Carries(s, HandlerStep(s, Accepter, c), Refuses(Accept(c)))
  {
    hide AddNewSession, GetSession, RemoveSession, ProcessEvent, Await, Carries, Each;
    if Adding(s.acc) {
      AddCarries(s);
    } else if Getting(s.acc) {
      GetCarries(s);
    } else if Removing(s.acc) {
      RemoveCarries(s);
    } else if Processing(s.acc) {
      ProcessCarries(s);
    } else {
      AwaitCarries(s, c);
    }
  }

  lemma StepCarries(s: State, a: Action)
    requires Core(s) && |s.heap| <= IDS && s.running && Enabled(s, a)
    ensures Carries(s, Step(s, a), Refuses(a))
  {
    hide HandlerStep, CastStep, StopStep, Each;
    match a
    case Accept(c) => AccepterCarries(s, c);
    case Work(c) => HandlerFlags(s, Worker, c);
    case Cast(id) => CastFlags(s, id);
    case Halt(id) => StopUndisturbed(s, id);
  }

  // A server that has been stopped does not run again.
  lemma StepStopped(s: State, a: Action)
    requires FlagsOk(s) && Enabled(s, a)
    ensures Step(s, a).running ==> s.running
  {
    hide HandlerStep, CastStep, StopStep;
    match a
    case Accept(c) => HandlerFlags(s, Accepter, c);
    case Work(c) => HandlerFlags(s, Worker, c);
    case Cast(id) => CastFlags(s, id);
    case Halt(id) => StopUndisturbed(s, id);
  }

  // ----- whole runs

  lemma {:induction false} RunCarries(s: State, run: seq<Action>, t: State)
    requires Inv(s) && Leads(s, run, t) && |t.heap| <= IDS && t.running
    ensures s.running && Carries(s, t, Refused(run))
    decreases |run|
  {
    if run != [] {
      hide Carries;
      var u := Step(s, run[0]);
      SessionsStay(s, run[0]);
      HeapGrows(u, run[1..], t);
      StepInv(s, run[0]);
      RunCarries(u, run[1..], t);
      StepStopped(s, run[0]);
      StepCarries(s, run[0]);
      RefusedLater(run);
      CarriesOn(s, u, t, Refuses(run[0]), Refused(run[1..]));
    }
  }

  lemma RefusedLater(run: seq<Action>)
    requires run != []
    ensures Refused(run) <==> Refuses(run[0]) || Refused(run[1..])
  {
    assert forall i :: 0 < i < |run| ==> run[i] == run[1..][i - 1];
    if Refused(run[1..]) {
      var i :| 0 <= i < |run[1..]| && Refuses(run[1..][i]);
      assert Refuses(run[i + 1]);
    }
  }

  lemma CarriesOn(s: State, u: State, t: State, first: bool, later: bool)
    requires Carries(s, u, first) && Carries(u, t, later)
    ensures Carries(s, t, first || later)
  {
  }

  /** While the server runs, it goes on accepting exactly as long as no accept has failed. */
  lemma AcceptsUntilRefused(run: seq<Action>, t: State)
    requires Leads(INITIAL, run, t) && |t.heap| <= IDS && t.running
    ensures Accepting(t) <==> !Refused(run)
  {
    ReachedInv(INITIAL) by {
      assert Leads(INITIAL, [], INITIAL);
    }
    RunCarries(INITIAL, run, t);
  }

  /** After a failed accept no session is ever made again, although the server runs on. */
  lemma DeafForGood(first: seq<Action>, s: State, run: seq<Action>, t: State)
    requires Leads(INITIAL, first, s) && Refused(first) && Leads(s, run, t) && |t.heap| <= IDS && t.running
    ensures Deaf(t) && |t.heap| == |s.heap|
  {
    HeapGrows(s, run, t);
    ReachedInv(s);
    ReachedInv(INITIAL) by {
      assert Leads(INITIAL, [], INITIAL);
    }
    RunCarries(s, run, t);
    RunCarries(INITIAL, first, s);
  }

  // ----- a run in which that happens

  lemma RefusedFound(s: State, op: Op)
    requires Comes(s) && s.acc.Poll? && s.conn == multiset{op} && op.event.Connected? && CanWrite(s)
    requires Resolve(s, op) == Object(op.owner)
    ensures Comes(s.(conn := multiset{}, acc := RemoveLock(op)))
  {
    hide Comes, Detagify, TagOf;
    ComesToFind(s, op, false, op.owner);
    var t := s.(conn := multiset{}, readers := {Accepter}, acc := GetUnlock(op, false, Object(op.owner)));
    ComesOn(t, Accept(Go));
    assert {Accepter} - {Accepter} == s.readers;
  }

  lemma RefusedErased(s: State, op: Op)
    requires Comes(s) && s.acc == RemoveErase(op) && s.writer == By(Accepter) && Detagify(TagOf(op)).0 == op.owner
    ensures Comes(s.(table := s.table - {op.owner}, writer := Nobody, acc := Poll))
  {
    hide Comes, Detagify, TagOf;
    ComesOn(s, Accept(Go));
    var t := s.(table := s.table - {op.owner}, acc := RemoveUnlock);
    ComesOn(t, Accept(Go));
  }

  lemma RefusedLocks(s: State, op: Op)
    requires Comes(s) && s.acc == RemoveLock(op) && CanWrite(s)
    ensures Comes(s.(writer := By(Accepter), acc := RemoveErase(op)))
  {
    hide Comes, Detagify, TagOf;
    ComesOn(s, Accept(Go));
  }

  /** It can happen: the first accept fails, and the running server waits for a connection that it has not asked for. */
  lemma AcceptsNobody() returns (s: State)
    ensures Comes(s) && |s.heap| == 1 && s.running && s.acc.Poll? && s.conn == multiset{} && !Accepting(s)
  {
    GrownComes(1);
    var t, op := Grown(1), Op(0, Connected);
    TagTells(op);
    RefusedFound(t, op);
    var u := t.(conn := multiset{}, acc := RemoveLock(op));
    RefusedLocks(u, op);
    var v := u.(writer := By(Accepter), acc := RemoveErase(op));
    RefusedErased(v, op);
    s := v.(table := v.table - {op.owner}, writer := Nobody, acc := Poll);
  }
}
