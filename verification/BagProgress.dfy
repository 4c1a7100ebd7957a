/** Progress of the bag without any fairness assumption: lost compare-and-swaps are paid for by the
    head writes of other calls, so every run is finite. */
module BagProgress {
  import opened Common
  import opened BagMachine

  ghost function Writers(s: State): nat {
    Sum(seq(|s.calls|, i requires 0 <= i < |s.calls| => if s.calls[i].Writer() then 1 else 0))
  }

  /** The call has loaded a head that is no longer the head. */
  predicate Stale(s: State, c: nat)
    requires c < |s.calls|
  {
    s.calls[c].Retrying() && s.calls[c].seen != s.head
  }

  /** How often call c can still lose its compare-and-swap. */
  ghost function Budget(s: State, c: nat): nat
    requires c < |s.calls|
  {
    if s.calls[c].Inserting()
    then (if Writers(s) == 0 then 0 else Writers(s) - 1) + (if Stale(s, c) then 1 else 0)
    else 0
  }

  lemma WriterCounts(s: State, c: nat)
    requires c < |s.calls| && s.calls[c].Writer()
    ensures Writers(s) >= 1
  {
    var xs := seq(|s.calls|, i requires 0 <= i < |s.calls| => if s.calls[i].Writer() then 1 else 0);
    SumUpdate(xs, c, 0);
  }

  /** A step changes only its own call, and lowers the number of writers exactly when that call
      stops being one. */
  lemma StepWriters(form: Form, s: State, m: Move)
    requires Enabled(s, m)
    ensures var t := Next(form, s, m);
            && |t.calls| == |s.calls|
            && (forall i :: 0 <= i < |s.calls| && i != m.call ==> t.calls[i] == s.calls[i])
            && Writers(t) == Writers(s) - (if s.calls[m.call].Writer() && !t.calls[m.call].Writer() then 1 else 0)
  {
    var t := Next(form, s, m);
    var xs := seq(|s.calls|, i requires 0 <= i < |s.calls| => if s.calls[i].Writer() then 1 else 0);
    var ys := seq(|t.calls|, i requires 0 <= i < |t.calls| => if t.calls[i].Writer() then 1 else 0);
    SumUpdate(xs, m.call, ys[m.call]);
    assert ys == xs[m.call := ys[m.call]];
    if s.calls[m.call].Writer() {
      WriterCounts(s, m.call);
    }
  }

  /** No step raises a call's budget, and losing a compare-and-swap spends one unit of it. */
  lemma StepBudget(form: Form, s: State, m: Move, c: nat)
    requires Enabled(s, m) && c < |s.calls|
    ensures |Next(form, s, m).calls| == |s.calls|
    ensures Budget(Next(form, s, m), c) + (if m.call == c && CasFails(s, m) then 1 else 0) <= Budget(s, c)
  {
    StepWriters(form, s, m);
    if s.calls[c].Writer() {
      WriterCounts(s, c);
    }
    if Next(form, s, m).calls[c].Writer() {
      WriterCounts(Next(form, s, m), c);
    }
  }

  ghost function Failures(form: Form, s: State, moves: seq<Move>, c: nat): nat
    requires ValidRun(form, s, moves)
    decreases |moves|
  {
    if moves == [] then 0
    else (if moves[0].call == c && CasFails(s, moves[0]) then 1 else 0)
         + Failures(form, Next(form, s, moves[0]), moves[1..], c)
  }

  lemma {:induction false} FailuresWithinBudget(form: Form, s: State, moves: seq<Move>, c: nat)
    requires ValidRun(form, s, moves) && c < |s.calls|
    ensures Failures(form, s, moves, c) <= Budget(s, c)
    decreases |moves|
  {
    if moves != [] {
      StepBudget(form, s, moves[0], c);
      FailuresWithinBudget(form, Next(form, s, moves[0]), moves[1..], c);
    }
  }

  /** In every run of k inserts and c collects, under either collector and any interleaving, each
      insert loses its compare-and-swap at most (k - 1) + c times. */
  lemma RetriesBounded(form: Form, s: State, moves: seq<Move>, c: nat)
    requires Initial(s) && ValidRun(form, s, moves) && c < |s.calls|
    ensures Failures(form, s, moves, c) <= |s.calls| - 1
  {
    FailuresWithinBudget(form, s, moves, c);
    WritersAtMost(s);
  }

  lemma WritersAtMost(s: State)
    ensures Writers(s) <= |s.calls|
  {
    var xs := seq(|s.calls|, i requires 0 <= i < |s.calls| => if s.calls[i].Writer() then 1 else 0);
    SumAtMost(xs, 1);
  }

  /** The steps call c may still take, if every retry in its budget is used. */
  ghost function Potential(s: State, c: nat): nat
    requires c < |s.calls|
  {
    match s.calls[c]
    case InsertAlloc(_) => 3 * Budget(s, c) + 7
    case InsertLoad(_, _) => 3 * Budget(s, c) + 3
    case InsertLink(_, _, _) => 3 * Budget(s, c) + 2
    case InsertCas(_, _, _) => 3 * Budget(s, c) + 1
    case CollectLoad => 5
    case CollectDetach(_) => 4
    case Walk(_, _) => 3
    case WalkNext(_, _) => 2
    case WalkFree(_, _, _) => 1
    case _ => 0
  }

  ghost function Potentials(s: State): (xs: seq<nat>)
    ensures |xs| == |s.calls|
  {
    seq(|s.calls|, i requires 0 <= i < |s.calls| => Potential(s, i))
  }

  ghost function Measure(s: State): nat {
    (if s.fault then 0 else 1) + 3 * |s.heap| + Sum(Potentials(s))
  }

  /** A step never raises another call's potential: a head write may make it stale, but leaves one
      writer fewer. */
  lemma OthersDoNotRise(form: Form, s: State, m: Move, i: nat)
    requires Enabled(s, m) && i < |s.calls| && i != m.call
    ensures |Next(form, s, m).calls| == |s.calls|
    ensures Potential(Next(form, s, m), i) <= Potential(s, i)
  {
    StepWriters(form, s, m);
    StepBudget(form, s, m, i);
  }

  /** An allocation adds a live node, a free removes one, and no other step changes their number. */
  lemma HeapSize(form: Form, s: State, m: Move)
    requires Enabled(s, m)
    ensures var t := Next(form, s, m);
            |t.heap| == |s.heap| + (if s.calls[m.call].InsertAlloc? then 1
                                    else if s.calls[m.call].WalkFree? && !t.fault then -1 else 0)
  {
    var t := Next(form, s, m);
    match s.calls[m.call] {
      case InsertAlloc(_) =>
        assert t.heap.Keys == s.heap.Keys + {m.addr};
        assert |t.heap.Keys| == |s.heap.Keys| + 1;
      case InsertLink(_, n, _) =>
        if n in s.heap {
          assert t.heap.Keys == s.heap.Keys;
          assert |t.heap.Keys| == |s.heap.Keys|;
        }
      case WalkFree(cur, _, _) =>
        if cur in s.heap {
          assert t.heap.Keys == s.heap.Keys - {cur};
          assert |t.heap.Keys| == |s.heap.Keys| - 1;
        }
      case _ =>
    }
  }

  /** The stepping call pays for its step, for the node it allocates and for a fault. */
  lemma StepperPays(form: Form, s: State, m: Move)
    requires Enabled(s, m)
    ensures var t := Next(form, s, m);
            && |t.calls| == |s.calls|
            && Potential(t, m.call) + 3 * |t.heap| + (if t.fault then 0 else 1)
               < Potential(s, m.call) + 3 * |s.heap| + 1
  {
    StepBudget(form, s, m, m.call);
    HeapSize(form, s, m);
    hide Budget;
  }

  /** Every step of every call lowers the measure. */
  lemma StepLowersMeasure(form: Form, s: State, m: Move)
    requires Enabled(s, m)
    ensures Measure(Next(form, s, m)) < Measure(s)
  {
    var t, c := Next(form, s, m), m.call;
    StepperPays(form, s, m);
    forall i | 0 <= i < |s.calls| && i != c
      ensures Potential(t, i) <= Potential(s, i)
    {
      OthersDoNotRise(form, s, m, i);
    }
    SumUpdate(Potentials(s), c, Potential(t, c));
    SumMonotone(Potentials(s)[c := Potential(t, c)], Potentials(t));
  }

  lemma {:induction false} RunLowersMeasure(form: Form, s: State, moves: seq<Move>)
    requires ValidRun(form, s, moves)
    ensures Measure(Run(form, s, moves)) + |moves| <= Measure(s)
    decreases |moves|
  {
    if moves != [] {
      StepLowersMeasure(form, s, moves[0]);
      RunLowersMeasure(form, Next(form, s, moves[0]), moves[1..]);
    }
  }

  ghost function InsertFlags(s: State): (ks: seq<nat>)
    ensures |ks| == |s.calls|
  {
    seq(|s.calls|, i requires 0 <= i < |s.calls| => if s.calls[i].InsertAlloc? then 1 else 0)
  }

  ghost function Inserts(s: State): nat {
    Sum(InsertFlags(s))
  }

  lemma {:induction false} InitialPotential(calls: seq<Call>, xs: seq<nat>, ks: seq<nat>, insert: nat)
    requires |calls| == |xs| == |ks|
    requires forall i :: 0 <= i < |xs| ==> xs[i] <= if calls[i].InsertAlloc? then insert else 5
    requires forall i :: 0 <= i < |xs| ==> ks[i] == if calls[i].InsertAlloc? then 1 else 0
    ensures Sum(ks) <= |calls|
    ensures Sum(xs) <= Sum(ks) * insert + (|calls| - Sum(ks)) * 5
  {
    if xs != [] {
      InitialPotential(calls[1..], xs[1..], ks[1..], insert);
      var k := Sum(ks[1..]);
      assert (k + 1) * insert == k * insert + insert;
    }
  }

  /** A run of k inserts and c collects takes at most 1 + k(3(k + c) + 4) + 5c steps, whatever the
      scheduler and the allocator do and whichever collector is used; in particular no schedule
      keeps a retry loop going for ever. */
  lemma RunsAreBounded(form: Form, s: State, moves: seq<Move>)
    requires Initial(s) && ValidRun(form, s, moves)
    ensures Inserts(s) <= |s.calls|
    ensures var k, c := Inserts(s), |s.calls| - Inserts(s);
            |moves| <= 1 + k * (3 * (k + c) + 4) + 5 * c
  {
    RunLowersMeasure(form, s, moves);
    WritersAtMost(s);
    InitialPotential(s.calls, Potentials(s), InsertFlags(s), 3 * |s.calls| + 4);
  }
}
