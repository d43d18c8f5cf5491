/** A producer and any number of consumers around one queue, one flag, one mutex and one condition variable. */
module ProducerConsumer {

  datatype ProducerPc = Sleeping | Pushing | Flagging | Notifying | Releasing

  /** Where a consumer stands: `Locking`, at the test of the flag with the mutex held, in the wait set of the condition
      variable, woken up and asking for the mutex again, about to let go of the mutex, asleep, or draining. */
  datatype ConsumerPc = Locking | Testing | Waiting | Unlocking | Dozing | Draining | Clearing | Leaving

  datatype Holder = Nobody | Producer | Consumer(i: nat)

  /** The shared variables and the threads, and the items consumed so far; `next` is the producer's counter. */
  datatype State = State(buffer: seq<nat>, notified: bool, mutex: Holder, next: nat,
                         producer: ProducerPc, consumers: seq<ConsumerPc>, consumed: seq<nat>)

  function Initial(n: nat): State {
    State([], false, Nobody, 0, Sleeping, seq(n, i => Locking), [])
  }

  /** A step of the producer, a step of consumer `i`, or a spurious wake-up of consumer `i`. */
  datatype Action = Produce | Consume(i: nat) | Wake(i: nat)

  predicate Enabled(s: State, a: Action) {
    match a
    case Produce => s.producer.Sleeping? ==> s.mutex.Nobody?
    case Consume(i) =>
      && i < |s.consumers| && !s.consumers[i].Waiting?
      && (s.consumers[i].Locking? || s.consumers[i].Dozing? ==> s.mutex.Nobody?)
    case Wake(i) => i < |s.consumers| && s.consumers[i].Waiting?
  }

  // notify_all: every waiting consumer goes to ask for the mutex.
  function WakeAll(cs: seq<ConsumerPc>): (r: seq<ConsumerPc>)
    ensures |r| == |cs|
    ensures forall i :: 0 <= i < |cs| ==> r[i] == if cs[i].Waiting? then Locking else cs[i]
  {
    seq(|cs|, i requires 0 <= i < |cs| => if cs[i].Waiting? then Locking else cs[i])
  }

  function ProducerStep(s: State): State {
    match s.producer
    case Sleeping => s.(mutex := Producer, producer := Pushing)
    case Pushing => s.(buffer := s.buffer + [s.next], producer := Flagging)
    case Flagging => s.(notified := true, producer := Notifying)
    case Notifying => s.(consumers := WakeAll(s.consumers), producer := Releasing)
    case Releasing => s.(mutex := Nobody, next := s.next + 1, producer := Sleeping)
  }

  function ConsumerStep(s: State, i: nat): State
    requires i < |s.consumers|
  {
    var goto := (pc: ConsumerPc) => s.consumers[i := pc];
    match s.consumers[i]
    case Locking => s.(mutex := Consumer(i), consumers := goto(Testing))
    // cv.wait enters the wait set and lets go of the mutex in one step
    case Testing =>
      if s.notified then s.(consumers := goto(Unlocking))
      else s.(mutex := Nobody, consumers := goto(Waiting))
    case Waiting => s
    case Unlocking => s.(mutex := Nobody, consumers := goto(Dozing))
    case Dozing => s.(mutex := Consumer(i), consumers := goto(Draining))
    case Draining =>
      if s.buffer != [] then s.(buffer := s.buffer[1..], consumed := s.consumed + [s.buffer[0]])
      else s.(consumers := goto(Clearing))
    case Clearing => s.(notified := false, consumers := goto(Leaving))
    case Leaving => s.(mutex := Nobody, consumers := goto(Locking))
  }

  function Step(s: State, a: Action): State
    requires Enabled(s, a)
  {
    match a
    case Produce => ProducerStep(s)
    case Consume(i) => ConsumerStep(s, i)
    case Wake(i) => s.(consumers := s.consumers[i := Locking])
  }

  predicate Leads(s: State, run: seq<Action>, t: State)
    decreases |run|
  {
    if run == [] then s == t else Enabled(s, run[0]) && Leads(Step(s, run[0]), run[1..], t)
  }

  // ----- the invariant

  function UpTo(n: nat): seq<nat> {
    seq(n, i => i)
  }

  predicate InSection(pc: ConsumerPc) {
    pc.Testing? || pc.Unlocking? || pc.Draining? || pc.Clearing? || pc.Leaving?
  }

  predicate NobodyWaits(s: State) {
    forall i :: 0 <= i < |s.consumers| ==> !s.consumers[i].Waiting?
  }

  // The items pushed so far: the counter moves on only at the end of the producer's section.
  function Pushed(s: State): nat {
    s.next + if s.producer.Flagging? || s.producer.Notifying? || s.producer.Releasing? then 1 else 0
  }

  predicate MutexOk(s: State) {
    && (s.mutex == Producer <==> !s.producer.Sleeping?)
    && (s.mutex.Consumer? ==> s.mutex.i < |s.consumers|)
    && (forall i :: 0 <= i < |s.consumers| ==> (InSection(s.consumers[i]) <==> s.mutex == Consumer(i)))
  }

  // What the holder of the mutex knows about the flag, the buffer and the wait set.
  predicate FlagOk(s: State) {
    match s.mutex
    case Nobody => (s.notified <==> s.buffer != []) && (s.notified ==> NobodyWaits(s))
    case Producer =>
      (match s.producer
       case Sleeping => true
       case Pushing => (s.notified <==> s.buffer != []) && (s.notified ==> NobodyWaits(s))
       case Flagging => s.buffer != [] && (s.notified ==> NobodyWaits(s))
       case Notifying => s.buffer != [] && s.notified
       case Releasing => s.buffer != [] && s.notified && NobodyWaits(s))
    case Consumer(i) =>
      i < |s.consumers| &&
      match s.consumers[i]
      case Unlocking => s.buffer != [] && s.notified && NobodyWaits(s)
      case Draining => (s.buffer != [] ==> s.notified) && (s.notified ==> NobodyWaits(s))
      case Clearing => s.buffer == [] && (s.notified ==> NobodyWaits(s))
      case Leaving => s.buffer == [] && !s.notified
      case _ => (s.notified <==> s.buffer != []) && (s.notified ==> NobodyWaits(s))
  }

  predicate Inv(s: State) {
    MutexOk(s) && FlagOk(s) && s.consumed + s.buffer == UpTo(Pushed(s))
  }

  lemma ProducerInv(s: State)
    requires Inv(s) && Enabled(s, Produce)
    ensures Inv(ProducerStep(s))
  {
    if s.producer.Pushing? {
      assert UpTo(s.next + 1) == UpTo(s.next) + [s.next];
      assert s.consumed + (s.buffer + [s.next]) == (s.consumed + s.buffer) + [s.next];
    }
  }

  lemma ConsumerInv(s: State, i: nat)
    requires Inv(s) && Enabled(s, Consume(i))
    ensures Inv(ConsumerStep(s, i))
  {
    if s.consumers[i].Draining? && s.buffer != [] {
      assert s.consumed + s.buffer == (s.consumed + [s.buffer[0]]) + s.buffer[1..];
    }
  }

  lemma WakeInv(s: State, i: nat)
    requires Inv(s) && Enabled(s, Wake(i))
    ensures Inv(Step(s, Wake(i)))
  {
  }

  lemma {:induction false} RunInv(s: State, run: seq<Action>, t: State)
    requires Inv(s) && Leads(s, run, t)
    ensures Inv(t)
    decreases |run|
  {
    if run != [] {
      match run[0] {
        case Produce => ProducerInv(s);
        case Consume(i) => ConsumerInv(s, i);
        case Wake(i) => WakeInv(s, i);
      }
      RunInv(Step(s, run[0]), run[1..], t);
    }
  }

  /** In every run with any number of consumers and any spurious wake-ups: the items consumed followed by the buffer are
      0, 1, 2, ... in order; whenever the mutex is free, the flag says whether the buffer holds anything, and
      no consumer is left in the wait set while it does; and no consumer passes the test of the flag in vain. */
  lemma NothingLost(n: nat, run: seq<Action>, s: State)
    requires Leads(Initial(n), run, s)
    ensures s.consumed + s.buffer == UpTo(|s.consumed + s.buffer|)
    ensures s.next <= |s.consumed + s.buffer| <= s.next + 1
    ensures s.mutex.Nobody? ==> (s.notified <==> s.buffer != []) && |s.consumed + s.buffer| == s.next
    ensures s.mutex.Nobody? && s.buffer != [] ==> NobodyWaits(s)
    ensures forall i :: 0 <= i < |s.consumers| && s.consumers[i].Unlocking? ==> s.notified && s.buffer != []
  {
    RunInv(Initial(n), run, s);
  }

  /** No deadlock: in every run, the holder of the mutex can always move, and with the mutex free the producer can. */
  lemma AlwaysMoves(n: nat, run: seq<Action>, s: State) returns (a: Action)
    requires Leads(Initial(n), run, s)
    ensures Enabled(s, a) && (s.mutex.Consumer? ==> a == Consume(s.mutex.i)) && (!s.mutex.Consumer? ==> a == Produce)
  {
    RunInv(Initial(n), run, s);
    a := if s.mutex.Consumer? then Consume(s.mutex.i) else Produce;
  }

  /** The shared variables themselves, and the two sections that change them with the mutex held. */
  class Shared {
    var buffer: seq<nat>
    var notified: bool

    method Produce(i: nat)
      modifies this
      ensures buffer == old(buffer) + [i] && notified
    {
      buffer := buffer + [i];
      notified := true;
    }

    // The drain loop takes everything, in order, and leaves the flag down.
    method Drain() returns (taken: seq<nat>)
      modifies this
      ensures taken == old(buffer) && buffer == [] && !notified
    {
      taken := [];
      while buffer != []
        invariant taken + buffer == old(buffer)
        decreases |buffer|
      {
        taken, buffer := taken + [buffer[0]], buffer[1..];
      }
      notified := false;
    }
  }

  // The steps of the drain loop, without anyone in between.
  function Drained(s: State, i: nat): State
    requires i < |s.consumers|
    decreases |s.buffer|
  {
    if s.consumers[i].Draining? && s.buffer != [] then Drained(ConsumerStep(s, i), i) else s
  }

  /** The drain loop taken step by step does what `Drain` does: the items go over in order, and nothing else changes. */
  lemma {:induction false} DrainSteps(s: State, i: nat)
    requires i < |s.consumers| && s.consumers[i].Draining?
    ensures Drained(s, i) == s.(buffer := [], consumed := s.consumed + s.buffer)
    decreases |s.buffer|
  {
    if s.buffer != [] {
      DrainSteps(ConsumerStep(s, i), i);
      assert s.consumed + [s.buffer[0]] + s.buffer[1..] == s.consumed + s.buffer;
    }
  }

  // ----- each thread on its own

  /** `run` is made of the action `a` alone, and leads from `s` to `t`. */
  ghost predicate Alone(a: Action, s: State, t: State) {
    exists run :: (forall i :: 0 <= i < |run| ==> run[i] == a) && Leads(s, run, t)
  }

  lemma AloneNone(a: Action, s: State)
    ensures Alone(a, s, s)
  {
    assert Leads(s, [], s);
  }

  lemma AloneStep(a: Action, s: State, t: State)
    requires Enabled(s, a) && Alone(a, Step(s, a), t)
    ensures Alone(a, s, t)
  {
    var run :| (forall i :: 0 <= i < |run| ==> run[i] == a) && Leads(Step(s, a), run, t);
    var more := [a] + run;
    assert more[1..] == run;
    assert Leads(s, more, t);
  }

  // What is left when consumer `i` has taken everything and let go of the mutex.
  function Taken(s: State, i: nat): State
    requires i < |s.consumers|
  {
    s.(buffer := [], consumed := s.consumed + s.buffer, notified := false, mutex := Nobody,
       consumers := s.consumers[i := Locking])
  }

  lemma {:induction false} DrainRuns(s: State, i: nat)
    requires i < |s.consumers| && s.consumers[i].Draining?
    ensures Alone(Consume(i), s, Taken(s, i))
    decreases |s.buffer|
  {
    hide Alone;
    var u := ConsumerStep(s, i);
    if s.buffer != [] {
      DrainRuns(u, i);
      assert s.consumed + [s.buffer[0]] + s.buffer[1..] == s.consumed + s.buffer;
    } else {
      var v := ConsumerStep(u, i);
      AloneNone(Consume(i), Taken(s, i));
      assert s.consumed + s.buffer == s.consumed;
      assert v.consumers[i := Locking] == s.consumers[i := Locking];
      AloneStep(Consume(i), v, Taken(s, i));
      AloneStep(Consume(i), u, Taken(s, i));
    }
    AloneStep(Consume(i), s, Taken(s, i));
  }

  lemma DozeRuns(s: State, i: nat)
    requires i < |s.consumers| && s.consumers[i].Dozing? && s.mutex.Nobody?
    ensures Alone(Consume(i), s, Taken(s, i))
  {
    hide Alone;
    var u := ConsumerStep(s, i);
    DrainRuns(u, i);
    assert u.consumers[i := Locking] == s.consumers[i := Locking];
    AloneStep(Consume(i), s, Taken(s, i));
  }

  lemma LockRuns(s: State, i: nat)
    requires i < |s.consumers| && s.consumers[i].Locking? && s.mutex.Nobody? && s.notified
    ensures Alone(Consume(i), s, Taken(s, i))
  {
    hide Alone;
    var u := ConsumerStep(s, i);
    var v := ConsumerStep(u, i);
    var w := ConsumerStep(v, i);
    DozeRuns(w, i);
    assert w.consumers[i := Locking] == s.consumers[i := Locking];
    AloneStep(Consume(i), v, Taken(s, i));
    AloneStep(Consume(i), u, Taken(s, i));
    AloneStep(Consume(i), s, Taken(s, i));
  }

  /** In every run, whenever the mutex is free and the buffer is not empty, the steps of any one consumer alone lead to
      where it has consumed the whole buffer in order, put the flag down and let go of the mutex. */
  lemma AnyoneConsumes(n: nat, run: seq<Action>, s: State, i: nat)
    requires Leads(Initial(n), run, s) && s.mutex.Nobody? && s.buffer != [] && i < |s.consumers|
    ensures Alone(Consume(i), s, Taken(s, i))
  {
    hide Alone;
    RunInv(Initial(n), run, s);
    if s.consumers[i].Locking? {
      LockRuns(s, i);
    } else {
      DozeRuns(s, i);
    }
  }

  /** Whenever the mutex is free and the buffer is empty, a consumer that asks for the mutex ends up in the wait set. */
  lemma WaitsForItems(n: nat, run: seq<Action>, s: State, i: nat)
    requires Leads(Initial(n), run, s) && s.mutex.Nobody? && s.buffer == [] && i < |s.consumers|
    requires s.consumers[i].Locking?
    ensures Alone(Consume(i), s, s.(consumers := s.consumers[i := Waiting]))
  {
    hide Alone;
    RunInv(Initial(n), run, s);
    var t := s.(consumers := s.consumers[i := Waiting]);
    AloneNone(Consume(i), t);
    assert s.consumers[i := Testing][i := Waiting] == s.consumers[i := Waiting];
    AloneStep(Consume(i), ConsumerStep(s, i), t);
    AloneStep(Consume(i), s, t);
  }

  /** Whenever the mutex is free, the producer's own steps push the next item at the end of the buffer, put the flag up,
      wake up everyone in the wait set and let go of the mutex. */
  lemma NextIsProduced(n: nat, run: seq<Action>, s: State)
    requires Leads(Initial(n), run, s) && s.mutex.Nobody?
    ensures Alone(Produce, s, s.(buffer := s.buffer + [s.next], notified := true, next := s.next + 1,
                                 consumers := WakeAll(s.consumers)))
  {
    hide Alone;
    RunInv(Initial(n), run, s);
    var t := s.(buffer := s.buffer + [s.next], notified := true, next := s.next + 1,
                consumers := WakeAll(s.consumers));
    var s1 := ProducerStep(s);
    var s2 := ProducerStep(s1);
    var s3 := ProducerStep(s2);
    var s4 := ProducerStep(s3);
    AloneNone(Produce, t);
    AloneStep(Produce, s4, t);
    AloneStep(Produce, s3, t);
    AloneStep(Produce, s2, t);
    AloneStep(Produce, s1, t);
    AloneStep(Produce, s, t);
  }
}
