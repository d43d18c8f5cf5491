/** Two timers whose callbacks run on one strand, in any order, and count down a shared counter. */
module Timer {

  /** The counter, which of the two timers have a callback pending, what was printed, and how many callbacks ran. */
  datatype State = State(count: int, pending1: bool, pending2: bool, printed: seq<int>, calls: nat)

  function Initial(count: int): State {
    State(count, true, true, [], 0)
  }

  predicate Pending(s: State, first: bool) {
    if first then s.pending1 else s.pending2
  }

  function Arm(s: State, first: bool, armed: bool): State {
    s.(pending1 := if first then armed else s.pending1, pending2 := if first then s.pending2 else armed)
  }

  // The callback of one timer: it is no longer pending, and is armed again unless the counter has run out.
  function Fire(s: State, first: bool): State {
    var t := Arm(s, first, false).(calls := s.calls + 1);
    if s.count == 0 then t
    else Arm(t, first, s.count - 1 != 0).(count := s.count - 1, printed := s.printed + [s.count])
  }

  predicate Leads(s: State, run: seq<bool>, t: State)
    decreases |run|
  {
    if run == [] then s == t else Pending(s, run[0]) && Leads(Fire(s, run[0]), run[1..], t)
  }

  // `n`, `n - 1`, ..., down to but without `m`
  function Down(n: int, m: int): seq<int>
    requires m <= n
    decreases n - m
  {
    if n == m then [] else Down(n, m + 1) + [m + 1]
  }

  predicate Inv(s: State, c: int) {
    && 0 <= s.count <= c && s.printed == Down(c, s.count)
    && (s.count > 0 ==> s.pending1 && s.pending2 && s.calls == c - s.count)
    && (s.count == 0 ==> s.calls + (if s.pending1 then 1 else 0) + (if s.pending2 then 1 else 0) == c + 1
                         && !(s.pending1 && s.pending2))
  }

  lemma FireInv(s: State, first: bool, c: int)
    requires Inv(s, c) && Pending(s, first)
    ensures Inv(Fire(s, first), c)
  {
  }

  lemma {:induction false} RunInv(s: State, run: seq<bool>, t: State, c: int)
    requires Inv(s, c) && Leads(s, run, t)
    ensures Inv(t, c) && t.calls == s.calls + |run|
    decreases |run|
  {
    if run != [] {
      FireInv(s, run[0], c);
      RunInv(Fire(s, run[0]), run[1..], t, c);
    }
  }

  /** For every initial count above zero and every order of the callbacks: the count never goes below zero, what is
      printed counts down from it, no run is longer than c + 1 callbacks, and a run that is over has printed all
      numbers down to 1, in exactly c + 1 callbacks. */
  lemma CountsDown(c: int, run: seq<bool>, s: State)
    requires c > 0 && Leads(Initial(c), run, s)
    ensures 0 <= s.count <= c && s.printed == Down(c, s.count) && |run| == s.calls <= c + 1
    ensures !s.pending1 && !s.pending2 <==> |run| == c + 1
    ensures !s.pending1 && !s.pending2 ==> s.count == 0 && s.printed == Down(c, 0)
  {
    RunInv(Initial(c), run, s, c);
  }

  // The i-th number printed is the initial count less i.
  lemma {:induction false} DownAt(n: int, m: int, i: nat)
    requires m <= n && i < n - m
    ensures |Down(n, m)| == n - m && Down(n, m)[i] == n - i
    decreases n - m
  {
    if i < n - m - 1 {
      DownAt(n, m + 1, i);
    } else if m + 1 < n {
      DownAt(n, m + 1, 0);
    }
  }

  /** The counter object and its two callbacks. */
  class Counter {
    var count: int
    var pending1: bool
    var pending2: bool
    var printed: seq<int>
    ghost var calls: nat

    ghost function View(): State
      reads this
    {
      State(count, pending1, pending2, printed, calls)
    }

    constructor (initial: int)
      requires initial > 0
      ensures View() == Initial(initial)
    {
      count, pending1, pending2, printed, calls := initial, true, true, [], 0;
    }

    method Print1()
      requires pending1
      modifies this
      ensures View() == Fire(old(View()), true)
    {
      pending1, calls := false, calls + 1;
      if count == 0 {
        return;
      }
      printed := printed + [count];
      count := count - 1;
      if count != 0 {
        pending1 := true;
      }
    }

    method Print2()
      requires pending2
      modifies this
      ensures View() == Fire(old(View()), false)
    {
      pending2, calls := false, calls + 1;
      if count == 0 {
        return;
      }
      printed := printed + [count];
      count := count - 1;
      if count != 0 {
        pending2 := true;
      }
    }

    // The event loop, with the order of the callbacks chosen by `picks`.
    method Run(picks: nat -> bool)
      requires pending1 && pending2 && printed == [] && calls == 0 && count > 0
      modifies this
      ensures count == 0 && !pending1 && !pending2
      ensures printed == Down(old(count), 0) && calls == old(count) + 1
    {
      ghost var c := count;
      var n := 0;
      while pending1 || pending2
        invariant Inv(View(), c) && n == calls
        decreases c + 1 - calls
      {
        ghost var s := View();
        if pending1 && (picks(n) || !pending2) {
          FireInv(s, true, c);
          Print1();
        } else {
          FireInv(s, false, c);
          Print2();
        }
        n := n + 1;
      }
    }
  }
}
