/** `Stop` reaches every session: between taking and releasing the map's lock it stands at each session of the map once,
    with that session's mutex, to cancel it. */
module ServerStop {
  import opened Tags
  import opened Sessions
  import opened Server
  import opened ServerInvariant
  import opened ServerSteps
  import opened ServerTheorems
  import opened ServerLiveness

  // The action at which `Stop` cancels session `k`, if that is connected.
  predicate Cancels(s: State, a: Action, k: nat) {
    a.Halt? && s.stop.StopCancel? && s.stop.k == k
  }

  /** How often `Stop` comes to cancel session `k` along `run`. */
  function CancelsIn(s: State, run: seq<Action>, k: nat): nat
    decreases |run|
  {
    if run == [] || !Enabled(s, run[0]) then 0
    else (if Cancels(s, run[0], k) then 1 else 0) + CancelsIn(Step(s, run[0]), run[1..], k)
  }

  // `Stop` has still to come to session `k`.
  predicate Due(pc: StopPc, k: nat) {
    match pc
    case StopScan(todo) => k in todo
    case StopSessionLock(todo, j) => k in todo || j == k
    case StopCancel(todo, j) => k in todo || j == k
    case StopSessionUnlock(todo, _) => k in todo
    case _ => false
  }

  // `Stop` has taken the map's lock, and has no session both at hand and still to do.
  predicate Scanned(pc: StopPc) {
    match pc
    case StopCheck => false
    case StopClear => false
    case StopLock => false
    case StopSessionLock(todo, j) => j !in todo
    case StopCancel(todo, j) => j !in todo
    case _ => true
  }

  lemma HaltScans(s: State, id: nat, k: nat)
    requires TableOk(s) && StopEnabled(s, id) && Scanned(s.stop)
    ensures var u := StopStep(s, id);
      && Scanned(u.stop)
      && (Due(s.stop, k) <==> Due(u.stop, k) || Cancels(s, Halt(id), k))
      && !(Due(u.stop, k) && Cancels(s, Halt(id), k))
  {
    match s.stop
    case StopScan(_) =>
    case StopSessionLock(_, _) =>
    case StopCancel(_, _) =>
    case StopSessionUnlock(_, _) =>
    case _ =>
  }

  lemma StepScans(s: State, a: Action, k: nat)
    requires Shape(s) && Enabled(s, a) && Scanned(s.stop)
    ensures var u := Step(s, a);
      && Scanned(u.stop)
      && (Due(s.stop, k) <==> Due(u.stop, k) || Cancels(s, a, k))
      && !(Due(u.stop, k) && Cancels(s, a, k))
  {
    hide HandlerStep, CastStep, StopStep;
    match a
    case Accept(c) => HandlerFlags(s, Accepter, c);
    case Work(c) => HandlerFlags(s, Worker, c);
    case Cast(id) => CastFlags(s, id);
    case Halt(id) => HaltScans(s, id, k);
  }

  lemma {:induction false} RunScans(s: State, run: seq<Action>, t: State, k: nat)
    requires Inv(s) && Scanned(s.stop) && Leads(s, run, t) && |t.heap| <= IDS
    ensures Scanned(t.stop)
    ensures CancelsIn(s, run, k) == if Due(s.stop, k) && !Due(t.stop, k) then 1 else 0
    ensures Due(t.stop, k) ==> Due(s.stop, k)
    decreases |run|
  {
    if run != [] {
      var u := Step(s, run[0]);
      SessionsStay(s, run[0]);
      HeapGrows(u, run[1..], t);
      StepInv(s, run[0]);
      StepScans(s, run[0], k);
      RunScans(u, run[1..], t, k);
    }
  }

  lemma LockScans(s: State, id: nat)
    requires s.stop.StopLock? && StopEnabled(s, id)
    ensures StopStep(s, id).stop == StopScan(s.table.Keys)
  {
  }

  /** From taking the map's lock to releasing it, under any interleaving, `Stop` comes to cancel each session that was
      in the map exactly once, and no other. */
  lemma StopReachesAll(s: State, id: nat, run: seq<Action>, t: State, k: nat)
    requires Reached(s) && s.stop.StopLock? && StopEnabled(s, id)
    requires Leads(StopStep(s, id), run, t) && t.stop.StopUnlock? && |t.heap| <= IDS
    ensures CancelsIn(StopStep(s, id), run, k) == if k in s.table then 1 else 0
  {
    hide StopStep, Each;
    ReachedInv(s);
    StepInv(s, Halt(id));
    LockScans(s, id);
    RunScans(StopStep(s, id), run, t, k);
  }
}
