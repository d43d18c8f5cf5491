/** Deadlock freedom of the asynchronous server, and how its runs end. */
module ServerLiveness {
  import opened Tags
  import opened Sessions
  import opened Server
  import opened ServerInvariant
  import opened ServerTheorems

  function ThreadOf(a: Action): Thread {
    match a
    case Accept(_) => Accepter
    case Work(_) => Worker
    case Cast(_) => Broadcaster
    case Halt(_) => Stopper
  }

  ghost predicate CanStep(s: State, t: Thread) {
    exists a :: ThreadOf(a) == t && Enabled(s, a)
  }

  predicate HandlerBlocked(s: State, pc: Pc) {
    || ((pc.AddLock? || pc.RemoveLock?) && !CanWrite(s))
    || (pc.GetLock? && !CanRead(s))
    || (pc.SessionLock? && !Free(s, pc.k))
  }

  predicate CastBlocked(s: State) {
    || (s.cast.CastLock? && !CanRead(s))
    || (s.cast.CastSessionLock? && !Free(s, s.cast.k))
  }

  predicate StopBlocked(s: State) {
    || (s.stop.StopLock? && !CanWrite(s))
    || (s.stop.StopSessionLock? && !Free(s, s.stop.k))
  }

  /** The next thing thread `t` does is to take a lock that it cannot have now. */
  predicate Blocked(s: State, t: Thread) {
    match t
    case Accepter => HandlerBlocked(s, s.acc)
    case Worker => HandlerBlocked(s, s.wrk)
    case Broadcaster => CastBlocked(s)
    case Stopper => StopBlocked(s)
  }

  predicate HoldsTable(s: State, t: Thread) {
    t in s.readers || s.writer == By(t)
  }

  predicate HoldsMutex(s: State, t: Thread, k: nat) {
    k < |s.mutexes| && s.mutexes[k] == By(t)
  }

  ghost predicate HoldsLock(s: State, t: Thread) {
    HoldsTable(s, t) || exists k :: HoldsMutex(s, t, k)
  }

  // A session mutex is the last lock a thread takes: its holder never waits.
  lemma MutexHolderSteps(s: State, k: nat, u: Thread)
    requires Inv(s) && HoldsMutex(s, u, k)
    ensures CanStep(s, u)
  {
    assert Each(s, k);
    match u
    case Accepter => assert Enabled(s, Accept(Go));
    case Worker => assert Enabled(s, Work(Go));
    case Broadcaster => assert Enabled(s, Cast(0));
    case Stopper => assert Enabled(s, Halt(0));
  }

  lemma CastHolderSteps(s: State)
    requires Inv(s) && HoldsTable(s, Broadcaster) && !CastBlocked(s)
    ensures CanStep(s, Broadcaster)
  {
    if s.cast.CastScan? && s.cast.todo != {} {
      var id :| id in s.cast.todo;
      assert Enabled(s, Cast(id));
    } else {
      assert Enabled(s, Cast(0));
    }
  }

  lemma StopHolderSteps(s: State)
    requires Inv(s) && HoldsTable(s, Stopper) && !StopBlocked(s)
    ensures CanStep(s, Stopper)
  {
    if s.stop.StopScan? && s.stop.todo != {} {
      var id :| id in s.stop.todo;
      assert Enabled(s, Halt(id));
    } else {
      assert Enabled(s, Halt(0));
    }
  }

  // A holder of the map's lock steps, or waits for a session mutex, whose holder steps.
  lemma TableHolderSteps(s: State, u: Thread) returns (v: Thread)
    requires Inv(s) && HoldsTable(s, u)
    ensures HoldsLock(s, v) && CanStep(s, v)
  {
    v := u;
    match u
    case Accepter => assert Enabled(s, Accept(Go));
    case Worker => assert Enabled(s, Work(Go));
    case Broadcaster =>
      if CastBlocked(s) {
        v := s.mutexes[s.cast.k].thread;
        assert HoldsMutex(s, v, s.cast.k);
        MutexHolderSteps(s, s.cast.k, v);
      } else {
        CastHolderSteps(s);
      }
    case Stopper =>
      if StopBlocked(s) {
        v := s.mutexes[s.stop.k].thread;
        assert HoldsMutex(s, v, s.stop.k);
        MutexHolderSteps(s, s.stop.k, v);
      } else {
        StopHolderSteps(s);
      }
  }

  /** Whenever a thread waits for the map's lock or for a session mutex, some lock is held by a thread that can step. */
  lemma NoDeadlock(s: State, t: Thread) returns (u: Thread)
    requires Reached(s) && Blocked(s, t)
    ensures HoldsLock(s, u) && CanStep(s, u)
  {
    ReachedInv(s);
    if CanWrite(s) {
      var k := if t.Accepter? then s.acc.k else s.wrk.k; // the other two wait for a mutex only with the map locked
      u := s.mutexes[k].thread;
      assert HoldsMutex(s, u, k);
      MutexHolderSteps(s, k, u);
    } else {
      var h;
      if s.writer.Nobody? {
        h :| h in s.readers;
      } else {
        h := s.writer.thread;
      }
      u := TableHolderSteps(s, h);
    }
  }

  predicate HandlerIdle(pc: Pc, queue: multiset<Op>, shut: bool) {
    pc.Exit? || (pc.Poll? && queue == multiset{} && !shut)
  }

  lemma HandlerStuck(s: State, t: Thread)
    requires (t.Accepter? || t.Worker?) && !PcOf(s, t).AssertFailed? && !CanStep(s, t) && !Blocked(s, t)
    ensures if t.Accepter? then HandlerIdle(s.acc, s.conn, s.connShut)
            else HandlerIdle(s.wrk, s.readWrite, s.readWriteShut)
  {
    var queue := if t.Accepter? then s.conn else s.readWrite;
    var c := if !PcOf(s, t).Poll? then Go
             else if queue == multiset{} then Closed
             else var op :| op in queue; Deliver(op, true, "");
    assert !Enabled(s, if t.Accepter? then Accept(c) else Work(c));
  }

  // ----- the end of a run

  /** `Stop` shuts the queues down in order, and only once the server is no longer running. */
  predicate StopOrder(s: State) {
    && (s.stop.StopCheck? || s.stop.StopClear? ==> s.running)
    && (s.stop.StopReadWrite? || s.stop.StopExit? ==> s.connShut)
    && (s.stop.StopExit? ==> s.readWriteShut)
  }

  predicate SameFlags(s: State, t: State) {
    t.running == s.running && t.connShut == s.connShut && t.readWriteShut == s.readWriteShut && t.stop == s.stop
  }

  /** Only `Stop` changes the flags, only the accepter the queue of connections and the number of sessions, and each of
      the two handlers moves alone. */
  predicate KeepsFlags(s: State, u: State, t: Thread) {
    && SameFlags(s, u)
    && (t.Accepter? || Adding(s.wrk) || (u.conn == s.conn && u.acc == s.acc && |u.heap| == |s.heap|))
    && (t.Accepter? ==> u.wrk == s.wrk)
  }

  lemma AddFlags(s: State, t: Thread)
    requires Adding(PcOf(s, t))
    ensures KeepsFlags(s, AddNewSession(s, t), t)
  {
  }

  lemma GetFlags(s: State, t: Thread)
    requires Getting(PcOf(s, t))
    ensures KeepsFlags(s, GetSession(s, t), t)
  {
    hide AfterGet, Lookup, Detagify, TagOf;
  }

  lemma RemoveFlags(s: State, t: Thread)
    requires Removing(PcOf(s, t))
    ensures KeepsFlags(s, RemoveSession(s, t), t)
  {
    hide Detagify, TagOf;
  }

  lemma ApplyFlags(s: State, t: Thread, k: nat, update: (Session, Effect), pc: Pc)
    ensures KeepsFlags(s, Goto(Apply(s, k, update), t, pc), t)
  {
  }

  lemma ProcessLockFlags(s: State, t: Thread)
    requires PcOf(s, t).SessionLock? || PcOf(s, t).SessionUnlock?
    ensures KeepsFlags(s, ProcessEvent(s, t), t)
  {
  }

  lemma ProcessFlags(s: State, t: Thread)
    requires PcOf(s, t).Process? || PcOf(s, t).ProcessRest?
    ensures KeepsFlags(s, ProcessEvent(s, t), t)
  {
    hide FirstHalf, SecondHalf, Detagify, TagOf, Apply, Goto, KeepsFlags;
    var pc := PcOf(s, t);
    var e := Detagify(TagOf(pc.op)).1;
    if pc.Process? {
      ApplyFlags(s, t, pc.k, FirstHalf(At(s, pc.k), e),
                 if HasSecondHalf(e) then ProcessRest(pc.op, pc.k) else SessionUnlock(pc.op, pc.k));
    } else {
      ApplyFlags(s, t, pc.k, if HasSecondHalf(e) then SecondHalf(At(s, pc.k), e) else (At(s, pc.k), Silent),
                 SessionUnlock(pc.op, pc.k));
    }
  }

  lemma DeliverFlags(s: State, t: Thread, op: Op, ok: bool, name: string, pc: Pc)
    ensures KeepsFlags(s, Goto(Delivered(s, t, op, ok, name), t, pc), t)
  {
    hide Receive;
  }

  lemma LoopFlags(s: State, t: Thread, pc: Pc)
    ensures KeepsFlags(s, Goto(s, t, pc), t)
  {
  }

  lemma AwaitFlags(s: State, t: Thread, c: Choice)
    ensures KeepsFlags(s, Await(s, t, c), t)
  {
    hide Delivered, Goto, KeepsFlags;
    if !PcOf(s, t).LoopCheck? && c.Deliver? {
      DeliverFlags(s, t, c.op, c.ok, c.name, GetLock(c.op, c.ok));
    } else if !PcOf(s, t).LoopCheck? {
      LoopFlags(s, t, LoopCheck);
    } else {
      LoopFlags(s, t, if !s.running then Exit else if t.Accepter? then AddLock else Poll);
    }
  }

  lemma HandlerFlags(s: State, t: Thread, c: Choice)
    ensures KeepsFlags(s, HandlerStep(s, t, c), t)
  {
    hide AddNewSession, GetSession, RemoveSession, ProcessEvent, Await, KeepsFlags;
    var pc := PcOf(s, t);
    if Adding(pc) {
      AddFlags(s, t);
    } else if Getting(pc) {
      GetFlags(s, t);
    } else if Removing(pc) {
      RemoveFlags(s, t);
    } else if pc.Process? || pc.ProcessRest? {
      ProcessFlags(s, t);
    } else if Processing(pc) {
      ProcessLockFlags(s, t);
    } else {
      AwaitFlags(s, t, c);
    }
  }

  lemma SendFlags(s: State, k: nat, update: (Session, Effect), round: Round, pc: CastPc)
    ensures var u := Apply(s, k, update).(cast := pc, round := round);
      KeepsFlags(s, u, Broadcaster) && u.wrk == s.wrk
  {
  }

  lemma CastFlags(s: State, id: nat)
    requires CastEnabled(s, id)
    ensures KeepsFlags(s, CastStep(s, id), Broadcaster) && CastStep(s, id).wrk == s.wrk
  {
    hide SendResponse, CopiesOf, Apply;
    match s.cast
    case CastRecheck =>
    case CastScan(_) =>
    case CastSessionLock(_, _) =>
    case CastSend(_, k) =>
      SendFlags(s, k, SendResponse(At(s, k), Broadcast), CastStep(s, id).round, CastStep(s, id).cast);
    case CastSessionUnlock(_, _) =>
    case _ =>
  }

  lemma HaltStopOrder(s: State, id: nat)
    requires StopOrder(s) && StopEnabled(s, id)
    ensures StopOrder(StopStep(s, id))
  {
  }

  lemma StepStopOrder(s: State, a: Action)
    requires StopOrder(s) && Enabled(s, a)
    ensures StopOrder(Step(s, a))
  {
    hide HandlerStep, CastStep, StopStep;
    match a
    case Accept(c) => HandlerFlags(s, Accepter, c);
    case Work(c) => HandlerFlags(s, Worker, c);
    case Cast(id) => CastFlags(s, id);
    case Halt(id) => HaltStopOrder(s, id);
  }

  lemma {:induction false} RunStopOrder(s: State, run: seq<Action>, t: State)
    requires StopOrder(s) && Leads(s, run, t)
    ensures StopOrder(t)
    decreases |run|
  {
    if run != [] {
      StepStopOrder(s, run[0]);
      RunStopOrder(Step(s, run[0]), run[1..], t);
    }
  }

  /** The server only comes to rest with every thread finished and every lock free: no run gets stuck in a lock, on an
      assertion, or in a wait for a completion. */
  lemma RestsOnlyFinished(s: State)
    requires Reached(s) && forall t :: !CanStep(s, t)
    ensures s.acc.Exit? && s.wrk.Exit? && s.cast.CastExit? && s.stop.StopExit?
    ensures s.writer.Nobody? && s.readers == {} && forall k :: 0 <= k < |s.mutexes| ==> s.mutexes[k].Nobody?
  {
    var run :| Leads(INITIAL, run, s);
    RunStopOrder(INITIAL, run, s);
    ReachedInv(s);
    forall t ensures !Blocked(s, t) {
      if Blocked(s, t) {
        var u := NoDeadlock(s, t);
      }
    }
    HandlerStuck(s, Accepter);
    HandlerStuck(s, Worker);
    CastStuck(s);
    StopStuck(s);
    forall t ensures t !in s.readers {
      assert t == Accepter || t == Worker || t == Broadcaster || t == Stopper;
    }
    forall k | 0 <= k < |s.mutexes| ensures s.mutexes[k].Nobody? {
      assert Each(s, k);
    }
  }

  lemma CastStuck(s: State)
    requires Inv(s) && !CanStep(s, Broadcaster) && !Blocked(s, Broadcaster)
    ensures s.cast.CastExit?
  {
    if CastHold(s.cast) == Nothing {
      assert !Enabled(s, Cast(0));
    } else {
      CastHolderSteps(s);
    }
  }

  lemma StopStuck(s: State)
    requires Inv(s) && !CanStep(s, Stopper) && !Blocked(s, Stopper)
    ensures s.stop.StopExit?
  {
    if StopHold(s.stop) == Nothing {
      assert !Enabled(s, Halt(0));
    } else {
      StopHolderSteps(s);
    }
  }
}
