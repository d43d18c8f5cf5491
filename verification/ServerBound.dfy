/** The server is only sound for 2^62 sessions: the bound of the other theorems is exact. */
module ServerBound {
  import opened Tags
  import opened Sessions
  import opened Server
  import opened ServerInvariant
  import opened ServerTheorems

  const CONNECTED := Session(ReadyToWrite, [], "", Log([], [], 1, [], []))

  // The first reads of the sessions below `n`.
  ghost function FirstReads(n: nat): multiset<Op> {
    if n == 0 then multiset{} else FirstReads(n - 1) + multiset{Op(n - 1, ReadDone)}
  }

  // The map in which each of the first `n` ids stands for the session object of that number.
  ghost function Identity(n: nat): (m: map<nat, nat>)
    ensures forall i :: i in m <==> 0 <= i < n
    ensures forall i :: i in m ==> m[i] == i
  {
    if n == 0 then map[] else Identity(n - 1)[n - 1 := n - 1]
  }

  /** The server with `n` sessions made: all but the last are connected, and their first reads are under way; the
      accepter waits for a connection for the last one; nobody else has moved. */
  ghost function Grown(n: nat): State
    requires 0 < n < WORD
  {
    INITIAL.(heap := seq(n, i => if i < n - 1 then CONNECTED else NEW_SESSION),
             mutexes := seq(n, i => Nobody), table := Identity(n),
             conn := multiset{Op(n - 1, Connected)}, readWrite := FirstReads(n - 1), acc := Poll)
  }

  ghost predicate Comes(s: State) {
    exists run :: Leads(INITIAL, run, s)
  }

  lemma {:induction false} LeadsOn(s: State, run: seq<Action>, t: State, a: Action)
    requires Leads(s, run, t) && Enabled(t, a)
    ensures Leads(s, run + [a], Step(t, a))
    decreases |run|
  {
    if run == [] {
      assert (run + [a])[1..] == [];
    } else {
      LeadsOn(Step(s, run[0]), run[1..], t, a);
      assert (run + [a])[1..] == run[1..] + [a];
    }
  }

  lemma ComesOn(s: State, a: Action)
    requires Comes(s) && Enabled(s, a)
    ensures Comes(Step(s, a))
  {
    var run :| Leads(INITIAL, run, s);
    LeadsOn(INITIAL, run, s, a);
  }

  // ----- one step of the accepter, with nobody in the way

  lemma StepsAddLock(s: State)
    requires Comes(s) && s.acc.AddLock? && CanWrite(s)
    ensures Comes(s.(writer := By(Accepter), acc := AddIssue))
  {
    ComesOn(s, Accept(Go));
  }

  lemma StepsAddIssue(s: State)
    requires Comes(s) && s.acc.AddIssue?
    ensures Comes(s.(heap := s.heap + [NEW_SESSION], mutexes := s.mutexes + [Nobody],
                     conn := s.conn + multiset{Op(|s.heap|, Connected)}, acc := AddInsert))
  {
    ComesOn(s, Accept(Go));
  }

  lemma StepsAddInsert(s: State, n: nat)
    requires Comes(s) && s.acc.AddInsert? && |s.heap| == n + 1 && n < WORD
    ensures Comes(s.(table := s.table[n := n], acc := AddUnlock))
  {
    ComesOn(s, Accept(Go));
  }

  lemma StepsAddUnlock(s: State)
    requires Comes(s) && s.acc.AddUnlock?
    ensures Comes(s.(writer := Nobody, acc := Poll))
  {
    ComesOn(s, Accept(Go));
  }

  lemma StepsDeliver(s: State, op: Op, ok: bool)
    requires Comes(s) && s.acc.Poll? && op in s.conn && op.event.Connected?
    ensures Comes(s.(conn := s.conn - multiset{op}, acc := GetLock(op, ok)))
  {
    ComesOn(s, Accept(Deliver(op, ok, "")));
  }

  lemma StepsGetLock(s: State, op: Op, ok: bool)
    requires Comes(s) && s.acc == GetLock(op, ok) && CanRead(s)
    ensures Comes(s.(readers := s.readers + {Accepter}, acc := GetFind(op, ok)))
  {
    ComesOn(s, Accept(Go));
  }

  lemma StepsGetFind(s: State, op: Op, ok: bool)
    requires Comes(s) && s.acc == GetFind(op, ok)
    ensures Comes(s.(acc := GetUnlock(op, ok, Resolve(s, op))))
  {
    ComesOn(s, Accept(Go));
  }

  lemma StepsGetUnlock(s: State, op: Op, k: nat)
    requires Comes(s) && s.acc == GetUnlock(op, true, Object(k)) && Detagify(TagOf(op)).1 == Connected
    ensures Comes(s.(readers := s.readers - {Accepter}, acc := SessionLock(op, k)))
  {
    ComesOn(s, Accept(Go));
  }

  lemma StepsSessionLock(s: State, op: Op, k: nat)
    requires Comes(s) && s.acc == SessionLock(op, k) && k < |s.mutexes| && s.mutexes[k].Nobody?
    ensures Comes(s.(mutexes := s.mutexes[k := By(Accepter)], acc := Process(op, k)))
  {
    ComesOn(s, Accept(Go));
  }

  lemma StepsProcess(s: State, op: Op, k: nat)
    requires Comes(s) && s.acc == Process(op, k) && k < |s.heap| && Detagify(TagOf(op)).1 == Connected
    ensures Comes(s.(heap := s.heap[k := Read(s.heap[k]).0], readWrite := s.readWrite + multiset{Op(k, ReadDone)},
                     acc := ProcessRest(op, k)))
  {
    ComesOn(s, Accept(Go));
  }

  lemma StepsProcessRest(s: State, op: Op, k: nat)
    requires Comes(s) && s.acc == ProcessRest(op, k) && k < |s.heap| && Detagify(TagOf(op)).1 == Connected
    ensures Comes(s.(heap := s.heap[k := s.heap[k].(status := ReadyToWrite)], acc := SessionUnlock(op, k)))
  {
    ComesOn(s, Accept(Go));
    assert s.readWrite + multiset{} == s.readWrite;
  }

  lemma StepsSessionUnlock(s: State, op: Op, k: nat)
    requires Comes(s) && s.acc == SessionUnlock(op, k) && k < |s.mutexes|
    ensures Comes(s.(mutexes := s.mutexes[k := Nobody], acc := AddLock))
  {
    ComesOn(s, Accept(Go));
  }

  // ----- the sections of the code, one after the other

  lemma ComesToAdd(s: State)
    requires Comes(s) && s.acc.AddLock? && CanWrite(s) && |s.heap| < WORD
    ensures Comes(s.(heap := s.heap + [NEW_SESSION], mutexes := s.mutexes + [Nobody],
                     conn := s.conn + multiset{Op(|s.heap|, Connected)},
                     table := s.table[|s.heap| := |s.heap|], acc := Poll))
  {
    StepsAddLock(s);
    var s1 := s.(writer := By(Accepter), acc := AddIssue);
    StepsAddIssue(s1);
    var s2 := s1.(heap := s.heap + [NEW_SESSION], mutexes := s.mutexes + [Nobody],
                  conn := s.conn + multiset{Op(|s.heap|, Connected)}, acc := AddInsert);
    StepsAddInsert(s2, |s.heap|);
    var s3 := s2.(table := s.table[|s.heap| := |s.heap|], acc := AddUnlock);
    StepsAddUnlock(s3);
    assert s.writer == Nobody;
  }

  // The accept `op` is delivered and resolved to the session object `k`.
  lemma ComesToFind(s: State, op: Op, ok: bool, k: nat)
    requires Comes(s) && s.acc.Poll? && s.conn == multiset{op} && op.event.Connected? && CanWrite(s)
    requires Resolve(s, op) == Object(k)
    ensures Comes(s.(conn := multiset{}, readers := {Accepter}, acc := GetUnlock(op, ok, Object(k))))
  {
    hide Comes, Detagify, TagOf;
    StepsDeliver(s, op, ok);
    assert s.conn - multiset{op} == multiset{};
    var s1 := s.(conn := multiset{}, acc := GetLock(op, ok));
    StepsGetLock(s1, op, ok);
    assert s.readers + {Accepter} == {Accepter};
    var s2 := s1.(readers := {Accepter}, acc := GetFind(op, ok));
    StepsGetFind(s2, op, ok);
  }

  lemma ComesToLock(s: State, op: Op, k: nat)
    requires Comes(s) && s.acc.Poll? && s.conn == multiset{op} && op.event.Connected? && CanWrite(s)
    requires Resolve(s, op) == Object(k) && op.owner < WORD
    ensures Comes(s.(conn := multiset{}, acc := SessionLock(op, k)))
  {
    hide Comes, Detagify, TagOf;
    EventTells(op);
    ComesToFind(s, op, true, k);
    var s1 := s.(conn := multiset{}, readers := {Accepter}, acc := GetUnlock(op, true, Object(k)));
    StepsGetUnlock(s1, op, k);
    assert {Accepter} - {Accepter} == s.readers;
  }

  lemma EventTells(op: Op)
    requires op.owner < WORD
    ensures Detagify(TagOf(op)).1 == op.event
  {
    TagRoundTrip(op.owner, op.event);
  }

  // Session object `k` starts its first read, or another one.
  lemma ComesToRead(s: State, op: Op, k: nat)
    requires Comes(s) && s.acc.Poll? && s.conn == multiset{op} && op.event.Connected? && CanWrite(s)
    requires Resolve(s, op) == Object(k) && op.owner < WORD
    requires k < |s.heap| == |s.mutexes| && s.mutexes[k].Nobody?
    ensures Comes(s.(conn := multiset{}, mutexes := s.mutexes[k := By(Accepter)],
                     heap := s.heap[k := Read(s.heap[k]).0], readWrite := s.readWrite + multiset{Op(k, ReadDone)},
                     acc := ProcessRest(op, k)))
  {
    hide Comes, Detagify, TagOf, Resolve, CanWrite;
    EventTells(op);
    ComesToLock(s, op, k);
    var s1 := s.(conn := multiset{}, acc := SessionLock(op, k));
    StepsSessionLock(s1, op, k);
    var s2 := s1.(mutexes := s.mutexes[k := By(Accepter)], acc := Process(op, k));
    StepsProcess(s2, op, k);
  }

  lemma ComesToConnect(s: State, op: Op, k: nat)
    requires Comes(s) && s.acc.Poll? && s.conn == multiset{op} && op.event.Connected? && CanWrite(s)
    requires Resolve(s, op) == Object(k) && op.owner < WORD
    requires k < |s.heap| == |s.mutexes| && s.mutexes[k].Nobody? && s.heap[k] == NEW_SESSION
    ensures Comes(s.(conn := multiset{}, heap := s.heap[k := CONNECTED],
                     readWrite := s.readWrite + multiset{Op(k, ReadDone)}, acc := AddLock))
  {
    hide Comes, Detagify, TagOf, Resolve, CanWrite;
    EventTells(op);
    ComesToRead(s, op, k);
    var s1 := s.(conn := multiset{}, mutexes := s.mutexes[k := By(Accepter)],
                 heap := s.heap[k := Read(NEW_SESSION).0], readWrite := s.readWrite + multiset{Op(k, ReadDone)},
                 acc := ProcessRest(op, k));
    StepsProcessRest(s1, op, k);
    var s2 := s1.(heap := s1.heap[k := CONNECTED], acc := SessionUnlock(op, k));
    StepsSessionUnlock(s2, op, k);
    assert s1.heap[k := CONNECTED] == s.heap[k := CONNECTED];
    assert s2.mutexes[k := Nobody] == s.mutexes;
  }

  lemma ComesToNext(n: nat)
    requires 0 < n <= IDS && Comes(Grown(n))
    ensures Comes(Grown(n + 1))
  {
    var s, op := Grown(n), Op(n - 1, Connected);
    TagRoundTrip(n - 1, Connected);
    ComesToConnect(s, op, n - 1);
    var s1 := s.(conn := multiset{}, heap := s.heap[n - 1 := CONNECTED], readWrite := FirstReads(n), acc := AddLock);
    ComesToAdd(s1);
    var t := Grown(n + 1);
    assert t.heap == s1.heap + [NEW_SESSION] && t.mutexes == s1.mutexes + [Nobody];
    assert t.table == s1.table[n := n];
    assert t.conn == s1.conn + multiset{Op(n, Connected)};
  }

  /** Every number of sessions up to 2^62 + 1 is made in some run. */
  lemma {:induction false} GrownComes(n: nat)
    requires 0 < n <= IDS + 1
    ensures Comes(Grown(n))
  {
    if n == 1 {
      assert Leads(INITIAL, [], INITIAL);
      ComesOn(INITIAL, Accept(Go));
      var s := INITIAL.(acc := AddLock);
      ComesToAdd(s);
      var t := Grown(1);
      assert t.heap == s.heap + [NEW_SESSION] && t.mutexes == s.mutexes + [Nobody] && t.table == s.table[0 := 0];
      assert t.conn == s.conn + multiset{Op(0, Connected)};
    } else {
      GrownComes(n - 1);
      ComesToNext(n - 1);
    }
  }

  lemma FirstReadsOfZero(n: nat)
    requires 0 < n
    ensures FirstReads(n)[Op(0, ReadDone)] == 1
  {
    if n > 1 {
      FirstReadsOfZero(n - 1);
    }
  }

  lemma LastTakenForFirst(n: nat)
    requires n == IDS
    ensures Resolve(Grown(n + 1), Op(n, Connected)) == Object(0)
  {
    TagRoundTrip(n, Connected);
  }

  lemma SecondRead(n: nat) returns (s: State)
    requires 0 < n < WORD - 1 && Comes(Grown(n + 1)) && Resolve(Grown(n + 1), Op(n, Connected)) == Object(0)
    ensures Comes(s) && |s.heap| == n + 1 && Reads(s, 0) == 2
  {
    var t, op := Grown(n + 1), Op(n, Connected);
    ComesToRead(t, op, 0);
    s := t.(conn := multiset{}, mutexes := t.mutexes[0 := By(Accepter)], heap := t.heap[0 := Read(t.heap[0]).0],
            readWrite := t.readWrite + multiset{Op(0, ReadDone)}, acc := ProcessRest(op, 0));
    FirstReadsOfZero(n);
  }

  /** With 2^62 + 1 sessions, the accept of the last one is taken for the accept of the first one, which starts a
      second read beside the one it has under way. */
  lemma Confusion(n: nat) returns (s: State)
    requires n == IDS
    ensures Comes(s) && |s.heap| == n + 1 && Reads(s, 0) == 2
  {
    GrownComes(n + 1);
    LastTakenForFirst(n);
    s := SecondRead(n);
  }

  /** In the runs with at most `n` sessions no session ever has two reads under way, exactly for `n` up to 2^62. */
  lemma BoundIsExact(n: nat)
    ensures n <= IDS <==> forall s, k: nat | Comes(s) && |s.heap| <= n && k < |s.heap| :: Reads(s, k) <= 1
  {
    if n <= IDS {
      forall s, k: nat | Comes(s) && |s.heap| <= n && k < |s.heap| ensures Reads(s, k) <= 1 {
        SingleFlight(s, k);
      }
    } else {
      var s := Confusion(IDS);
      assert 0 < |s.heap| <= n && Reads(s, 0) > 1;
    }
  }
}
