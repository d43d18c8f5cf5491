/** What a failed completion leads to: the session that started the operation leaves the map before the thread that was
    handed the completion asks for another one. */
module ServerFailures {
  import opened Tags
  import opened Sessions
  import opened Server
  import opened ServerInvariant
  import opened ServerSteps
  import opened ServerTheorems
  import opened ServerLiveness

  // The thread has been handed the failure of `op`, and has not erased the session yet.
  predicate Holding(pc: Pc, op: Op) {
    match pc
    case GetLock(o, ok) => o == op && !ok
    case GetFind(o, ok) => o == op && !ok
    case GetUnlock(o, ok, _) => o == op && !ok
    case RemoveLock(o) => o == op
    case RemoveErase(o) => o == op
    case _ => false
  }

  predicate Failing(s: State, t: Thread, op: Op) {
    Holding(PcOf(s, t), op) || (PcOf(s, t).RemoveUnlock? && Removed(s, op.owner))
  }

  predicate Done(s: State, t: Thread, op: Op) {
    PcOf(s, t).Poll? && Removed(s, op.owner)
  }

  predicate Progress(s: State, t: Thread, op: Op) {
    Failing(s, t, op) || Done(s, t, op)
  }

  // ----- a step of the thread itself

  lemma NotEntered(s: State, op: Op)
    requires Core(s) && InHand(s.wrk, op) && s.acc.AddInsert?
    ensures op.owner != |s.heap| - 1
  {
    assert Each(s, |s.heap| - 1);
  }

  lemma GetProgress(s: State, t: Thread, op: Op)
    requires Handler(t) && Core(s) && |s.heap| <= IDS && Getting(PcOf(s, t)) && Failing(s, t, op)
    ensures Progress(GetSession(s, t), t, op)
  {
    if t.Worker? && s.acc.AddInsert? {
      NotEntered(s, op);
    }
    hide Each, Detagify, TagOf, Lookup, FlagsOk, QueuesOk;
  }

  lemma EraseProgress(s: State, t: Thread, op: Op)
    requires Handler(t) && Shape(s) && |s.heap| <= IDS && PcOf(s, t) == RemoveErase(op)
    ensures Progress(RemoveSession(s, t), t, op)
  {
    hide Detagify, TagOf, FlagsOk, QueuesOk;
    TagTells(op);
  }

  lemma RemoveProgress(s: State, t: Thread, op: Op)
    requires Handler(t) && (PcOf(s, t).RemoveLock? || PcOf(s, t).RemoveUnlock?) && Failing(s, t, op)
    ensures Progress(RemoveSession(s, t), t, op)
  {
  }

  lemma OwnProgress(s: State, t: Thread, c: Choice, op: Op)
    requires Handler(t) && Core(s) && |s.heap| <= IDS && Failing(s, t, op)
    ensures Progress(HandlerStep(s, t, c), t, op)
  {
    hide Each, GetSession, RemoveSession, Progress;
    if Getting(PcOf(s, t)) {
      GetProgress(s, t, op);
    } else if PcOf(s, t).RemoveErase? {
      EraseProgress(s, t, op);
    } else {
      RemoveProgress(s, t, op);
    }
  }

  // ----- a step of another thread

  lemma OtherProgress(s: State, a: Action, t: Thread, op: Op)
    requires Handler(t) && Shape(s) && |s.heap| <= IDS && Enabled(s, a) && ThreadOf(a) != t && Failing(s, t, op)
    ensures Failing(Step(s, a), t, op)
  {
    hide HandlerStep, CastStep, StopStep, Removed;
    if PcOf(s, t).RemoveUnlock? {
      StaysRemoved(s, a, op.owner);
    }
    match a
    case Accept(c) => HandlerFlags(s, Accepter, c);
    case Work(c) => HandlerFlags(s, Worker, c);
    case Cast(id) => CastFlags(s, id);
    case Halt(id) => StopUndisturbed(s, id);
  }

  lemma StepProgress(s: State, a: Action, t: Thread, op: Op)
    requires Handler(t) && Core(s) && |s.heap| <= IDS && Enabled(s, a) && Failing(s, t, op)
    ensures Progress(Step(s, a), t, op)
  {
    hide HandlerStep, CastStep, StopStep, Failing, Done, Each;
    if ThreadOf(a) == t {
      OwnProgress(s, t, a.c, op);
    } else {
      OtherProgress(s, a, t, op);
    }
  }

  // ----- whole runs

  /** `run` leads from `s` to `u`, and thread `t` waits for a completion at its end and not before. */
  predicate UntilPoll(s: State, run: seq<Action>, u: State, t: Thread)
    decreases |run|
  {
    if run == [] then s == u && PcOf(u, t).Poll?
    else !PcOf(s, t).Poll? && Enabled(s, run[0]) && UntilPoll(Step(s, run[0]), run[1..], u, t)
  }

  lemma {:induction false} UntilLeads(s: State, run: seq<Action>, u: State, t: Thread)
    requires UntilPoll(s, run, u, t)
    ensures Leads(s, run, u)
    decreases |run|
  {
    if run != [] {
      UntilLeads(Step(s, run[0]), run[1..], u, t);
    }
  }

  lemma {:induction false} RunProgress(s: State, run: seq<Action>, u: State, t: Thread, op: Op)
    requires Handler(t) && Inv(s) && Progress(s, t, op) && UntilPoll(s, run, u, t) && |u.heap| <= IDS
    ensures Done(u, t, op)
    decreases |run|
  {
    if run != [] {
      var v := Step(s, run[0]);
      UntilLeads(v, run[1..], u, t);
      HeapGrows(v, run[1..], u);
      SessionsStay(s, run[0]);
      StepInv(s, run[0]);
      StepProgress(s, run[0], t, op);
      RunProgress(v, run[1..], u, t, op);
    }
  }

  function Takes(t: Thread, c: Choice): Action {
    if t.Accepter? then Accept(c) else Work(c)
  }

  lemma Handed(s: State, t: Thread, op: Op, name: string)
    requires Handler(t) && PcOf(s, t).Poll?
    ensures PcOf(HandlerStep(s, t, Deliver(op, false, name)), t) == GetLock(op, false)
  {
    hide Receive;
  }

  /** Whenever the accepter or the worker is handed a completion that failed, whatever the operation was, then by the
      next time it waits for a completion the session that started it has left the map, for good. */
  lemma FailureRemoves(s: State, t: Thread, op: Op, name: string, run: seq<Action>, u: State)
    requires Reached(s) && Handler(t) && PcOf(s, t).Poll? && Enabled(s, Takes(t, Deliver(op, false, name)))
    requires UntilPoll(Step(s, Takes(t, Deliver(op, false, name))), run, u, t) && |u.heap| <= IDS
    ensures op.owner < |u.heap| && op.owner !in u.table
    ensures forall more, v :: Leads(u, more, v) && |v.heap| <= IDS ==> op.owner !in v.table
  {
    ReachedInv(s);
    var a := Takes(t, Deliver(op, false, name));
    var v := Step(s, a);
    UntilLeads(v, run, u, t);
    SessionsStay(s, a);
    HeapGrows(v, run, u);
    StepInv(s, a);
    Handed(s, t, op, name);
    hide HandlerStep;
    RunProgress(v, run, u, t, op);
    RunKeepsInv(v, run, u);
    forall more, w | Leads(u, more, w) && |w.heap| <= IDS ensures op.owner !in w.table {
      NothingAfterRemoval(u, more, w, op.owner);
    }
  }
}
