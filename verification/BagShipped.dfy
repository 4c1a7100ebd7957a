/** The shipped collector, which loads the head and stores null in two steps: exactly when it is
    memory safe, exactly what it loses, and exactly what it prints. */
module BagShipped {
  import opened Common
  import opened BagMachine
  import opened BagInvariant
  import opened BagRefinement
  import opened BagConservation
  import BagSafety

  // ----- the list is unique, so reachability from the head is a property of the state

  lemma {:induction false} ChainUnique(heap: map<Addr, Node>, p: Addr, xs: seq<Addr>, ys: seq<Addr>)
    requires Chain(heap, p, xs) && Chain(heap, p, ys)
    ensures xs == ys
    decreases |xs|
  {
    ChainEnd(heap, p, xs);
    ChainEnd(heap, p, ys);
    if xs != [] {
      BagSafety.ChainTail(heap, p, xs);
      BagSafety.ChainTail(heap, p, ys);
      ChainUnique(heap, heap[p].next, xs[1..], ys[1..]);
      assert xs == [xs[0]] + xs[1..] && ys == [ys[0]] + ys[1..];
    }
  }

  lemma ChainEnd(heap: map<Addr, Node>, p: Addr, xs: seq<Addr>)
    requires Chain(heap, p, xs)
    ensures xs == [] <==> p == NULL
  {
    if xs != [] {
      assert xs[0] in heap;
    }
  }

  ghost predicate Reachable(s: State, a: Addr) {
    exists xs :: Chain(s.heap, s.head, xs) && a in xs
  }

  /** The move does not load a non-empty list of which another collector has loaded, and not yet
      detached, a part. */
  ghost predicate Polite(s: State, m: Move) {
    m.call < |s.calls| && s.calls[m.call].CollectLoad? && s.head != NULL
    ==> forall d :: 0 <= d < |s.calls| && s.calls[d].CollectDetach? ==> !Reachable(s, s.calls[d].seen)
  }

  lemma PoliteIsDisciplined(s: State, v: View, m: Move)
    requires Inv(LoadThenStore, s, v)
    ensures Polite(s, m) <==> Disciplined(LoadThenStore, s, v.list, m)
  {
    forall a ensures Reachable(s, a) <==> a in v.list {
      if Reachable(s, a) {
        var xs :| Chain(s.heap, s.head, xs) && a in xs;
        ChainUnique(s.heap, s.head, xs, v.list);
      }
    }
    if Polite(s, m) && m.call < |s.calls| && s.calls[m.call].CollectLoad? && s.head != NULL {
      forall d | 0 <= d < |s.calls| ensures !Shares(s, v.list, d) {}
    }
    if Disciplined(LoadThenStore, s, v.list, m) && m.call < |s.calls| && s.calls[m.call].CollectLoad?
        && s.head != NULL {
      forall d | 0 <= d < |s.calls| && s.calls[d].CollectDetach? ensures s.calls[d].seen !in v.list {
        assert !Shares(s, v.list, d);
      }
    }
  }

  ghost predicate PoliteRun(s: State, moves: seq<Move>)
    requires ValidRun(LoadThenStore, s, moves)
    decreases |moves|
  {
    moves == [] || (Polite(s, moves[0]) && PoliteRun(Next(LoadThenStore, s, moves[0]), moves[1..]))
  }

  /** Along polite runs nothing dead is touched, values stay accounted for, and what is lost stays
      lost. */
  lemma {:induction false} PoliteRunIsSafe(s: State, v: View, moves: seq<Move>)
    requires Inv(LoadThenStore, s, v) && ValidRun(LoadThenStore, s, moves) && PoliteRun(s, moves)
    ensures |v.held| == |s.calls|
    ensures var t, w := Run(LoadThenStore, s, moves), RunView(LoadThenStore, s, v, moves);
            && Inv(LoadThenStore, t, w) && v.lost <= w.lost
            && (Balanced(s, v) ==> Balanced(t, w))
    decreases |moves|
  {
    assert |v.held| == |s.calls|;
    hide Inv, Balanced, Next, NextView, Enabled, Polite;
    if moves != [] {
      var t, w := Next(LoadThenStore, s, moves[0]), NextView(LoadThenStore, s, v, moves[0]);
      PoliteStepIsSafe(s, v, moves[0]);
      PoliteRunIsSafe(t, w, moves[1..]);
      PrefixTrans(v.lost, w.lost, RunView(LoadThenStore, t, w, moves[1..]).lost);
    }
  }

  lemma PoliteStepIsSafe(s: State, v: View, m: Move)
    requires Inv(LoadThenStore, s, v) && Enabled(s, m) && Polite(s, m)
    ensures |v.held| == |s.calls|
    ensures var t, w := Next(LoadThenStore, s, m), NextView(LoadThenStore, s, v, m);
            Inv(LoadThenStore, t, w) && v.lost <= w.lost && |w.held| == |t.calls| && (Balanced(s, v) ==> Balanced(t, w))
  {
    PoliteIsDisciplined(s, v, m);
    BagSafety.StepSafe(LoadThenStore, s, v, m);
    assert |v.held| == |s.calls| && |NextView(LoadThenStore, s, v, m).held| == |Next(LoadThenStore, s, m).calls|;
    hide Inv, Balanced, Next, Enabled, Polite, Disciplined;
    if Balanced(s, v) {
      StepBalance(LoadThenStore, s, v, m);
    }
    LostGrows(LoadThenStore, s, v, m);
  }

  /** Conservation for the shipped collector, at all times: in every polite run from an empty bag no
      freed node is touched, and the committed values are those in the list, those lost, and those
      printed, or still to be printed, by exactly one collector each. */
  lemma PoliteBagConserves(s: State, moves: seq<Move>)
    requires Initial(s) && ValidRun(LoadThenStore, s, moves) && PoliteRun(s, moves)
    ensures var t, v := Run(LoadThenStore, s, moves), RunView(LoadThenStore, s, EmptyView(s), moves);
            && !t.fault && Inv(LoadThenStore, t, v)
            && Committed(t) == multiset(Values(t.heap, v.list)) + multiset(Values(t.heap, v.lost)) + Union(Claims(t, v))
  {
    InitialInv(LoadThenStore, s);
    InitialBalanced(s);
    PoliteRunIsSafe(s, EmptyView(s), moves);
  }

  /** So when all calls are done, the inserted values are those left in the list, those lost, and those
      printed. */
  lemma PoliteBagAccounts(s: State, moves: seq<Move>)
    requires Initial(s) && ValidRun(LoadThenStore, s, moves) && PoliteRun(s, moves)
    requires AllDone(Run(LoadThenStore, s, moves))
    ensures var t, v := Run(LoadThenStore, s, moves), RunView(LoadThenStore, s, EmptyView(s), moves);
            && Chain(t.heap, t.head, v.list)
            && Union(Requests(s)) == multiset(Values(t.heap, v.list)) + multiset(Values(t.heap, v.lost))
                + Union(Printed(t))
  {
    PoliteBagConserves(s, moves);
    RunRequests(LoadThenStore, s, moves);
    DoneClaims(LoadThenStore, Run(LoadThenStore, s, moves), RunView(LoadThenStore, s, EmptyView(s), moves));
  }

  lemma LostGrows(form: Form, s: State, v: View, m: Move)
    requires Enabled(s, m) && |v.held| == |s.calls|
    ensures v.lost <= NextView(form, s, v, m).lost
  {
  }

  lemma PrefixTrans<T>(a: seq<T>, b: seq<T>, c: seq<T>)
    requires a <= b <= c
    ensures a <= c
  {
  }

  // ----- an impolite load leads to a use after free

  ghost predicate FaultsOn(s: State, moves: seq<Move>) {
    ValidRun(LoadThenStore, s, moves) && PoliteRun(s, moves) && Run(LoadThenStore, s, moves).fault
  }

  lemma Prepend(s: State, m: Move, rest: seq<Move>)
    requires Enabled(s, m) && Polite(s, m) && FaultsOn(Next(LoadThenStore, s, m), rest)
    ensures FaultsOn(s, [m] + rest)
  {
    assert ([m] + rest)[1..] == rest;
  }

  /** The collector at d reads, follows and frees the node it is at. */
  function Freed(s: State, d: nat): State
    requires d < |s.calls| && s.calls[d].Walk? && s.calls[d].cur in s.heap
  {
    var Walk(cur, out) := s.calls[d];
    s.(heap := s.heap - {cur}, calls := s.calls[d := Walk(s.heap[cur].next, out + [s.heap[cur].data])])
  }

  lemma ThreeSteps(s: State, d: nat, rest: seq<Move>) returns (moves: seq<Move>)
    requires !s.fault && d < |s.calls| && s.calls[d].Walk? && s.calls[d].cur in s.heap && s.calls[d].cur != NULL
    requires FaultsOn(Freed(s, d), rest)
    ensures FaultsOn(s, moves)
  {
    var m := Move(d, NULL);
    var s1 := Next(LoadThenStore, s, m);
    var s2 := Next(LoadThenStore, s1, m);
    assert Next(LoadThenStore, s2, m) == Freed(s, d);
    Prepend(s2, m, rest);
    Prepend(s1, m, [m] + rest);
    moves := [m] + ([m] + ([m] + rest));
    Prepend(s, m, [m] + ([m] + rest));
  }

  /** A walk along live nodes that ends at a dead one faults. */
  lemma {:induction false} WalkToDeadNode(s: State, b: nat, xs: seq<Addr>) returns (moves: seq<Move>)
    requires !s.fault && b < |s.calls| && s.calls[b].Walk? && xs != [] && s.calls[b].cur == xs[0]
    requires NoRepeats(xs) && (forall i :: 0 <= i < |xs| ==> xs[i] != NULL)
    requires forall i :: 0 <= i < |xs| - 1 ==> xs[i] in s.heap && s.heap[xs[i]].next == Succ(xs, i)
    requires xs[|xs| - 1] !in s.heap
    ensures FaultsOn(s, moves)
    decreases |xs|
  {
    if |xs| == 1 {
      var m := Move(b, NULL);
      assert FaultsOn(Next(LoadThenStore, s, m), []);
      moves := [m] + [];
      Prepend(s, m, []);
    } else {
      assert xs[0] in s.heap && s.heap[xs[0]].next == Succ(xs, 0);
      var t := Freed(s, b);
      forall i | 0 <= i < |xs[1..]| - 1
        ensures xs[1..][i] in t.heap && t.heap[xs[1..][i]].next == Succ(xs[1..], i)
      {
        assert xs[i + 1] in s.heap && s.heap[xs[i + 1]].next == Succ(xs, i + 1);
        assert xs[0] != xs[i + 1];
      }
      moves := WalkToDeadNode(t, b, xs[1..]);
      moves := ThreeSteps(s, b, moves);
    }
  }

  /** Two collectors about to detach share a node: the one frees it and the other walks into it. */
  lemma OverlapFaults(s: State, v: View, b: nat, d: nat, k: nat) returns (moves: seq<Move>)
    requires !s.fault && Chain(s.heap, s.head, v.list) && NoRepeats(v.list)
    requires b < |s.calls| && d < |s.calls| && b != d && k < |v.list|
    requires s.calls[b] == CollectDetach(s.head) && s.calls[d] == CollectDetach(v.list[k])
    ensures FaultsOn(s, moves)
  {
    var h, mb, md := v.list[k], Move(b, NULL), Move(d, NULL);
    assert v.list[k] in s.heap;
    var s1 := Next(LoadThenStore, s, md);
    assert s1 == s.(head := NULL, calls := s.calls[d := Walk(h, [])]);
    var s2 := Freed(s1, d);
    assert s2.heap == s.heap - {h} && s2.calls[b] == CollectDetach(s.head) && !s2.fault && |s2.calls| == |s.calls|;
    moves := DetachIntoDeadNode(s2, b, s.heap, v.list, k);
    moves := ThreeSteps(s1, d, moves);
    Prepend(s, md, moves);
    moves := [md] + moves;
  }

  /** The store and the walk of a collector whose snapshot's node k has been freed by another. */
  lemma DetachIntoDeadNode(s: State, b: nat, heap: map<Addr, Node>, list: seq<Addr>, k: nat) returns (moves: seq<Move>)
    requires Chain(heap, First(list), list) && NoRepeats(list) && k < |list|
    requires !s.fault && b < |s.calls| && s.calls[b] == CollectDetach(First(list)) && s.heap == heap - {list[k]}
    ensures FaultsOn(s, moves)
  {
    var mb := Move(b, NULL);
    var t := Next(LoadThenStore, s, mb);
    var xs := list[..k + 1];
    forall i | 0 <= i < |xs|
      ensures xs[i] != NULL
      ensures i < |xs| - 1 ==> xs[i] in t.heap && t.heap[xs[i]].next == Succ(xs, i)
    {
      assert list[i] in heap;
    }
    moves := WalkToDeadNode(t, b, xs);
    Prepend(s, mb, moves);
    moves := [mb] + moves;
  }

  /** After an impolite load the two collectors can run into each other: one frees the shared node,
      the other reads it. */
  lemma ImpoliteLoadCanFault(s: State, v: View, m: Move) returns (moves: seq<Move>)
    requires Inv(LoadThenStore, s, v) && Enabled(s, m) && !Polite(s, m)
    ensures FaultsOn(Next(LoadThenStore, s, m), moves)
  {
    PoliteIsDisciplined(s, v, m);
    var d: nat :| d < |s.calls| && Shares(s, v.list, d);
    var k: nat :| k < |v.list| && v.list[k] == s.calls[d].seen;
    moves := OverlapFaults(Next(LoadThenStore, s, m), v, m.call, d, k);
  }

  /** Exactly when a load by a shipped collector is memory safe: no polite continuation faults if
      and only if the load itself was polite. */
  lemma PoliteLoadIffSafe(s: State, v: View, m: Move)
    requires Inv(LoadThenStore, s, v) && Enabled(s, m)
    ensures Polite(s, m) <==>
            forall moves :: !FaultsOn(Next(LoadThenStore, s, m), moves)
  {
    var t := Next(LoadThenStore, s, m);
    if Polite(s, m) {
      PoliteStepIsSafe(s, v, m);
      forall moves | ValidRun(LoadThenStore, t, moves) && PoliteRun(t, moves)
        ensures !FaultsOn(t, moves)
      {
        PoliteRunIsSafe(t, NextView(LoadThenStore, s, v, m), moves);
      }
    } else {
      var moves := ImpoliteLoadCanFault(s, v, m);
    }
  }

  // ----- which programs can touch freed memory

  predicate IsCollect(call: Call) { !call.Inserting() && !call.Inserted? }

  ghost predicate OneCollector(s: State) {
    forall c, d :: 0 <= c < |s.calls| && 0 <= d < |s.calls| && IsCollect(s.calls[c]) && IsCollect(s.calls[d]) ==> c == d
  }

  lemma StepOneCollector(s: State, m: Move)
    requires OneCollector(s) && Enabled(s, m)
    ensures Polite(s, m) && OneCollector(Next(LoadThenStore, s, m))
  {
  }

  lemma {:induction false} OneCollectorIsPolite(s: State, moves: seq<Move>)
    requires OneCollector(s) && ValidRun(LoadThenStore, s, moves)
    ensures PoliteRun(s, moves)
    decreases |moves|
  {
    hide OneCollector, Polite, Next, Enabled;
    if moves != [] {
      StepOneCollector(s, moves[0]);
      OneCollectorIsPolite(Next(LoadThenStore, s, moves[0]), moves[1..]);
    }
  }

  /** Nothing but collectors of an empty bag. */
  ghost predicate NoInserts(s: State) {
    && s.head == NULL && !s.fault
    && forall c :: 0 <= c < |s.calls| ==>
         match s.calls[c]
         case CollectLoad => true
         case CollectDetach(seen) => seen == NULL
         case Walk(cur, _) => cur == NULL
         case Collected(_) => true
         case _ => false
  }

  lemma {:induction false} NoInsertsNoFault(s: State, moves: seq<Move>)
    requires NoInserts(s) && ValidRun(LoadThenStore, s, moves)
    ensures !Run(LoadThenStore, s, moves).fault
    decreases |moves|
  {
    if moves != [] {
      StepNoInserts(s, moves[0]);
      NoInsertsNoFault(Next(LoadThenStore, s, moves[0]), moves[1..]);
    }
  }

  lemma StepNoInserts(s: State, m: Move)
    requires NoInserts(s) && Enabled(s, m)
    ensures NoInserts(Next(LoadThenStore, s, m))
  {
  }

  /** One insert runs, both collectors load the head, and then the one frees the node under the other. */
  lemma OverlapRun(s: State, a: nat, b: nat, d: nat) returns (moves: seq<Move>)
    requires Initial(s) && a < |s.calls| && b < |s.calls| && d < |s.calls| && b != d
    requires s.calls[a].InsertAlloc? && s.calls[b].CollectLoad? && s.calls[d].CollectLoad?
    ensures ValidRun(LoadThenStore, s, moves) && Run(LoadThenStore, s, moves).fault
  {
    var inserting := [Move(a, 1), Move(a, 1), Move(a, 1), Move(a, 1)];
    InsertAlone(LoadThenStore, s, a, 1);
    var s1 := Run(LoadThenStore, s, inserting);
    var s2 := Next(LoadThenStore, s1, Move(b, NULL));
    var s3 := Next(LoadThenStore, s2, Move(d, NULL));
    assert s3.heap == map[1 := Node(s.calls[a].value, NULL)] && s3.head == 1;
    assert s3.calls[b] == CollectDetach(1) && s3.calls[d] == CollectDetach(1);
    var rest := OverlapFaults(s3, View([1], [], [], map[]), b, d, 0);
    RunCons(LoadThenStore, s2, Move(d, NULL), rest);
    RunCons(LoadThenStore, s1, Move(b, NULL), [Move(d, NULL)] + rest);
    moves := [Move(b, NULL)] + ([Move(d, NULL)] + rest);
    RunAppend(LoadThenStore, s, inserting, moves);
    moves := inserting + moves;
  }

  /** Exactly which programs can touch freed memory with the shipped collector: those with at least one
      insert and at least two collects. */
  lemma CanFaultIff(s: State)
    requires Initial(s)
    ensures (exists moves :: ValidRun(LoadThenStore, s, moves) && Run(LoadThenStore, s, moves).fault)
            <==> (exists a :: 0 <= a < |s.calls| && s.calls[a].InsertAlloc?)
                 && (exists b, d :: 0 <= b < d < |s.calls| && s.calls[b].CollectLoad? && s.calls[d].CollectLoad?)
  {
    if a, b, d :| 0 <= a < |s.calls| && s.calls[a].InsertAlloc?
                  && 0 <= b < d < |s.calls| && s.calls[b].CollectLoad? && s.calls[d].CollectLoad? {
      var moves := OverlapRun(s, a, b, d);
    } else {
      forall moves | ValidRun(LoadThenStore, s, moves) ensures !Run(LoadThenStore, s, moves).fault {
        if exists a :: 0 <= a < |s.calls| && s.calls[a].InsertAlloc? {
          assert OneCollector(s);
          OneCollectorIsPolite(s, moves);
          PoliteBagConserves(s, moves);
        } else {
          NoInsertsNoFault(s, moves);
        }
      }
    }
  }

  // ----- one collector: what the window between the load and the store costs

  /** Call c does not move and no other collector loads or detaches. */
  ghost predicate Window(s: State, c: nat, moves: seq<Move>)
    requires ValidRun(LoadThenStore, s, moves)
    decreases |moves|
  {
    moves == []
    || (moves[0].call != c && !s.calls[moves[0].call].CollectLoad? && !s.calls[moves[0].call].CollectDetach?
        && Window(Next(LoadThenStore, s, moves[0]), c, moves[1..]))
  }

  /** The inserts that win during the run, latest first. */
  ghost function Wins(s: State, moves: seq<Move>): seq<Value>
    requires ValidRun(LoadThenStore, s, moves)
    decreases |moves|
  {
    if moves == [] then []
    else Wins(Next(LoadThenStore, s, moves[0]), moves[1..])
         + (if CasWins(s, moves[0]) then [s.calls[moves[0].call].value] else [])
  }

  /** Call c has loaded the head and no other collector is between its load and its store. */
  ghost predicate InWindow(s: State, c: nat) {
    && c < |s.calls| && s.calls[c].CollectDetach?
    && forall d :: 0 <= d < |s.calls| && d != c ==> !s.calls[d].CollectDetach?
  }

  lemma WindowStep(s: State, v: View, c: nat, m: Move)
    requires Inv(LoadThenStore, s, v) && InWindow(s, c) && Enabled(s, m)
    requires m.call != c && !s.calls[m.call].CollectLoad? && !s.calls[m.call].CollectDetach?
    ensures var s1, v1 := Next(LoadThenStore, s, m), NextView(LoadThenStore, s, v, m);
            && Inv(LoadThenStore, s1, v1) && InWindow(s1, c) && s1.calls[c] == s.calls[c] && v1.lost == v.lost
            && Values(s1.heap, v.list) == Values(s.heap, v.list)
            && (if CasWins(s, m) then
                  v1.list == [s.calls[m.call].node] + v.list
                  && Values(s1.heap, v1.list) == [s.calls[m.call].value] + Values(s.heap, v.list)
                else v1.list == v.list)
  {
    WindowCalls(s, v, c, m);
    BagSafety.StepSafe(LoadThenStore, s, v, m);
    hide Inv, InWindow;
    if CasWins(s, m) {
      WinningCasPushes(LoadThenStore, s, v, m);
    } else {
      ListKept(LoadThenStore, s, v, m);
    }
  }

  lemma WindowCalls(s: State, v: View, c: nat, m: Move)
    requires InWindow(s, c) && Enabled(s, m) && |v.held| == |s.calls|
    requires m.call != c && !s.calls[m.call].CollectLoad? && !s.calls[m.call].CollectDetach?
    ensures InWindow(Next(LoadThenStore, s, m), c) && Next(LoadThenStore, s, m).calls[c] == s.calls[c]
    ensures NextView(LoadThenStore, s, v, m).lost == v.lost
    ensures Disciplined(LoadThenStore, s, v.list, m)
  {
  }

  /** During the window the list only grows at the front, by the values that win. */
  lemma {:induction false} WindowGrows(s: State, v: View, c: nat, moves: seq<Move>)
      returns (t: State, w: View, pushed: seq<Addr>)
    requires Inv(LoadThenStore, s, v) && InWindow(s, c)
    requires ValidRun(LoadThenStore, s, moves) && Window(s, c, moves)
    ensures t == Run(LoadThenStore, s, moves) && w == RunView(LoadThenStore, s, v, moves)
    ensures Inv(LoadThenStore, t, w) && InWindow(t, c) && t.calls[c] == s.calls[c]
    ensures w.list == pushed + v.list && w.lost == v.lost
    ensures Values(t.heap, w.list) == Wins(s, moves) + Values(s.heap, v.list)
    ensures |pushed| == |Wins(s, moves)|
    decreases |moves|
  {
    assert |v.held| == |s.calls|;
    hide Inv, InWindow, Next, NextView;
    if moves == [] {
      t, w, pushed := s, v, [];
    } else {
      var m, rest := moves[0], moves[1..];
      var s1, v1 := Next(LoadThenStore, s, m), NextView(LoadThenStore, s, v, m);
      WindowStep(s, v, c, m);
      var later: seq<Addr>;
      t, w, later := WindowGrows(s1, v1, c, rest);
      var nodes := if CasWins(s, m) then [s.calls[m.call].node] else [];
      var vals := if CasWins(s, m) then [s.calls[m.call].value] else [];
      pushed := later + nodes;
      WinsUnfold(s, moves);
      Regroup(later, nodes, v.list);
      Regroup(Wins(s1, rest), vals, Values(s.heap, v.list));
      assert Values(s1.heap, v1.list) == vals + Values(s.heap, v.list) && v1.list == nodes + v.list;
    }
  }

  lemma Regroup<T>(a: seq<T>, b: seq<T>, c: seq<T>)
    ensures (a + b) + c == a + (b + c)
    ensures [] + c == c && a + [] == a
  {
  }

  lemma WinsUnfold(s: State, moves: seq<Move>)
    requires ValidRun(LoadThenStore, s, moves) && moves != []
    ensures Wins(s, moves) == Wins(Next(LoadThenStore, s, moves[0]), moves[1..])
                              + (if CasWins(s, moves[0]) then [s.calls[moves[0].call].value] else [])
  {
  }

  /** What the store of null does at the end of the window. */
  lemma StoreAfterWindow(t: State, w: View, c: nat, pushed: seq<Addr>, snapshot: seq<Addr>)
    requires Inv(LoadThenStore, t, w) && InWindow(t, c)
    requires w.list == pushed + snapshot && t.calls[c].seen == First(snapshot)
    ensures Enabled(t, Move(c, NULL))
    ensures var w' := NextView(LoadThenStore, t, w, Move(c, NULL));
            w'.list == [] && w'.held[c] == snapshot && w'.lost == w.lost + pushed
    ensures pushed == [] <==> t.head == t.calls[c].seen
  {
    StoreFacts(t, w, c, pushed, snapshot);
    hide Inv, InWindow;
    StoreTakes(t, w, c, pushed, snapshot);
  }

  lemma StoreFacts(t: State, w: View, c: nat, pushed: seq<Addr>, snapshot: seq<Addr>)
    requires Inv(LoadThenStore, t, w) && InWindow(t, c)
    requires w.list == pushed + snapshot && t.calls[c].seen == First(snapshot)
    ensures !t.fault && |t.calls| == |w.held| && t.head == First(w.list) && NoRepeats(w.list)
    ensures forall i :: 0 <= i < |w.list| ==> w.list[i] != NULL
    ensures forall e {:trigger Shares(t, w.list, e)} :: Shares(t, w.list, e) ==> e == c
    ensures snapshot == [] ==> w.held[c] == []
  {
    assert CallOk(LoadThenStore, t, w, c);
    ListedIsLive(t, w);
    ChainEnd(t.heap, t.head, w.list);
    assert forall e {:trigger Shares(t, w.list, e)} :: Shares(t, w.list, e) ==> e == c;
    if snapshot == [] {
      assert NULL !in w.list;
      ChainEnd(t.heap, NULL, w.held[c]);
    }
  }

  lemma ListedIsLive(s: State, v: View)
    requires Chain(s.heap, s.head, v.list)
    ensures forall i :: 0 <= i < |v.list| ==> v.list[i] != NULL
  {
    forall i | 0 <= i < |v.list| ensures v.list[i] != NULL {
      assert v.list[i] in s.heap;
    }
  }

  lemma StoreTakes(t: State, w: View, c: nat, pushed: seq<Addr>, snapshot: seq<Addr>)
    requires !t.fault && c < |t.calls| == |w.held| && t.calls[c].CollectDetach?
    requires w.list == pushed + snapshot && t.calls[c].seen == First(snapshot) && t.head == First(w.list)
    requires NoRepeats(w.list) && forall i :: 0 <= i < |w.list| ==> w.list[i] != NULL
    requires forall e {:trigger Shares(t, w.list, e)} :: Shares(t, w.list, e) ==> e == c
    requires snapshot == [] ==> w.held[c] == []
    ensures var w' := NextView(LoadThenStore, t, w, Move(c, NULL));
            w'.list == [] && w'.held[c] == snapshot && w'.lost == w.lost + pushed
    ensures pushed == [] <==> t.head == t.calls[c].seen
  {
    hide Taken, Missed, Taker, Sharer, NextView, Next, Shares, NoRepeats;
    BagSafety.DetachShape(LoadThenStore, t, w, Move(c, NULL));
    TakesSnapshot(t, w, c, pushed, snapshot);
    HeadTells(w.list, pushed, snapshot);
  }

  lemma HeadTells(list: seq<Addr>, pushed: seq<Addr>, snapshot: seq<Addr>)
    requires list == pushed + snapshot && NoRepeats(list) && forall i :: 0 <= i < |list| ==> list[i] != NULL
    ensures pushed == [] <==> First(list) == First(snapshot)
  {
    if pushed != [] && snapshot != [] {
      assert list[0] != list[|pushed|];
    }
  }

  lemma TakesSnapshot(t: State, w: View, c: nat, pushed: seq<Addr>, snapshot: seq<Addr>)
    requires c < |t.calls| && t.calls[c].CollectDetach?
    requires w.list == pushed + snapshot && t.calls[c].seen == First(snapshot) && NoRepeats(w.list)
    requires forall i :: 0 <= i < |w.list| ==> w.list[i] != NULL
    requires forall e {:trigger Shares(t, w.list, e)} :: Shares(t, w.list, e) ==> e == c
    ensures Taken(LoadThenStore, t, w) == snapshot && Missed(LoadThenStore, t, w) == pushed
    ensures snapshot != [] ==> Taker(LoadThenStore, t, w, c) == c
  {
    SliceOfSum(pushed, snapshot);
    if snapshot == [] {
      assert !Shares(t, w.list, c);
      assert Sharer(t, w.list) == |t.calls|;
    } else {
      TakesShared(t, w, c, |pushed|);
    }
  }

  lemma SliceOfSum<T>(xs: seq<T>, ys: seq<T>)
    ensures (xs + ys)[|xs|..] == ys && (xs + ys)[..|xs|] == xs
    ensures ys != [] ==> (xs + ys)[|xs|] == ys[0]
  {
  }

  lemma TakesShared(t: State, w: View, c: nat, k: nat)
    requires c < |t.calls| && t.calls[c].CollectDetach? && NoRepeats(w.list)
    requires k < |w.list| && t.calls[c].seen == w.list[k]
    requires forall e {:trigger Shares(t, w.list, e)} :: Shares(t, w.list, e) ==> e == c
    ensures Taken(LoadThenStore, t, w) == w.list[k..] && Missed(LoadThenStore, t, w) == w.list[..k]
    ensures Taker(LoadThenStore, t, w, c) == c
  {
    assert Shares(t, w.list, c);
    assert Sharer(t, w.list) == c;
    hide Sharer, NoRepeats;
    assert NoRepeats(w.list) ==> Suffix(w.list, w.list[k]) == w.list[k..] by { SuffixAt(w.list, k); }
  }

  lemma {:induction false} SuffixAt(xs: seq<Addr>, k: nat)
    requires k < |xs| && NoRepeats(xs)
    ensures Suffix(xs, xs[k]) == xs[k..]
  {
    if k > 0 {
      SuffixAt(xs[1..], k - 1);
      assert xs[1..][k - 1..] == xs[k..];
    }
  }

  /** The state and view at c's store, when c loads in s and then the moves of the window happen. */
  ghost predicate StoreReached(s: State, v: View, c: nat, moves: seq<Move>, t: State, w: View) {
    && Inv(LoadThenStore, s, v) && c < |s.calls| && s.calls[c].CollectLoad?
    && (forall d :: 0 <= d < |s.calls| ==> !s.calls[d].CollectDetach?)
    && var s1 := Next(LoadThenStore, s, Move(c, NULL));
       && ValidRun(LoadThenStore, s1, moves) && Window(s1, c, moves)
       && t == Run(LoadThenStore, s1, moves) && w == RunView(LoadThenStore, s1, v, moves)
  }

  lemma StoreState(s: State, v: View, c: nat, moves: seq<Move>, t: State, w: View) returns (pushed: seq<Addr>)
    requires StoreReached(s, v, c, moves, t, w)
    ensures Inv(LoadThenStore, t, w) && InWindow(t, c) && t.calls[c] == CollectDetach(s.head)
    ensures w.list == pushed + v.list && w.lost == v.lost
    ensures var wins := Wins(Next(LoadThenStore, s, Move(c, NULL)), moves);
            Values(t.heap, w.list) == wins + Values(s.heap, v.list) && |pushed| == |wins|
  {
    var m := Move(c, NULL);
    assert Disciplined(LoadThenStore, s, v.list, m);
    BagSafety.StepSafe(LoadThenStore, s, v, m);
    var t', w';
    t', w', pushed := WindowGrows(Next(LoadThenStore, s, m), v, c, moves);
  }

  /** The shipped collector, characterised.  Take any reachable state in which collect call c is
      about to load the head and no other collector is between its load and its store, and any
      interleaving of inserts, and of collectors that are already walking, up to c's store.  Then c
      will print exactly what the bag held at the load, exactly the values pushed in between become
      unreachable, the list is left empty, and nothing is lost if and only if no insert won in
      between, which is the case exactly when the head at the store is still the one c loaded. */
  lemma ShippedCollectorExact(s: State, v: View, c: nat, moves: seq<Move>, t: State, w: View)
      returns (t': State, w': View)
    requires StoreReached(s, v, c, moves, t, w)
    ensures Enabled(t, Move(c, NULL)) && |w.held| == |t.calls|
    ensures t' == Next(LoadThenStore, t, Move(c, NULL)) && w' == NextView(LoadThenStore, t, w, Move(c, NULL))
    ensures Inv(LoadThenStore, t', w') && w'.list == [] && v.lost <= w'.lost
    ensures c < |t'.calls| == |w'.held| && Claimed(t', w', c) == Values(s.heap, v.list)
    ensures var wins := Wins(Next(LoadThenStore, s, Move(c, NULL)), moves);
            && Values(t'.heap, w'.lost[|v.lost|..]) == wins
            && (w'.lost == v.lost <==> wins == [])
    ensures w'.lost == v.lost <==> t.head == s.head
  {
    var m := Move(c, NULL);
    ghost var wins := Wins(Next(LoadThenStore, s, m), moves);
    var pushed := StoreState(s, v, c, moves, t, w);
    StoreAfterWindow(t, w, c, pushed, v.list);
    BagSafety.StepSafe(LoadThenStore, t, w, m);
    t', w' := Next(LoadThenStore, t, m), NextView(LoadThenStore, t, w, m);
    StoreClaims(t, w, c, v.list);
    ValuesSplit(t.heap, pushed, v.list);
    SameSplit(Values(t.heap, pushed), Values(t.heap, v.list), wins, Values(s.heap, v.list));
    assert w'.lost == v.lost + pushed && w'.lost[|v.lost|..] == pushed;
  }

  lemma SameSplit<T>(a: seq<T>, b: seq<T>, a': seq<T>, b': seq<T>)
    requires a + b == a' + b' && |a| == |a'|
    ensures a == a' && b == b'
  {
    assert a == (a + b)[..|a|] && b == (a + b)[|a|..];
  }

  lemma StoreClaims(t: State, w: View, c: nat, snapshot: seq<Addr>)
    requires Enabled(t, Move(c, NULL)) && t.calls[c].CollectDetach? && |w.held| == |t.calls|
    requires NextView(LoadThenStore, t, w, Move(c, NULL)).held[c] == snapshot
    ensures var t', w' := Next(LoadThenStore, t, Move(c, NULL)), NextView(LoadThenStore, t, w, Move(c, NULL));
            t'.heap == t.heap && |t'.calls| == |t.calls| == |w'.held| && Claimed(t', w', c) == Values(t.heap, snapshot)
  {
    BagSafety.DetachShape(LoadThenStore, t, w, Move(c, NULL));
    hide Taken, Missed, Taker, NextView, Next;
    WalkClaim(Next(LoadThenStore, t, Move(c, NULL)), NextView(LoadThenStore, t, w, Move(c, NULL)), c);
  }

  lemma WalkClaim(t: State, w: View, c: nat)
    requires c < |t.calls| == |w.held| && t.calls[c].Walk? && t.calls[c].out == []
    ensures Claimed(t, w, c) == Values(t.heap, w.held[c])
  {
  }

  /** Once a collector of the shipped form has detached, no polite step changes what it will print. */
  lemma WalkerKeepsClaim(s: State, v: View, m: Move, c: nat)
    requires Inv(LoadThenStore, s, v) && Enabled(s, m) && Polite(s, m)
    requires c < |s.calls| && (s.calls[c].Walking() || s.calls[c].Collected?)
    ensures var t, w := Next(LoadThenStore, s, m), NextView(LoadThenStore, s, v, m);
            && c < |t.calls| == |w.held|
            && (t.calls[c].Walking() || t.calls[c].Collected?)
            && Claimed(t, w, c) == Claimed(s, v, c)
  {
    if c == m.call {
      WalkKeepsClaim(LoadThenStore, s, v, m);
    } else if s.calls[m.call].CollectDetach? {
      DetachKeepsWalker(s, v, m, c);
    } else {
      OthersKeepClaims(LoadThenStore, s, v, m, c);
    }
  }

  lemma DetachKeepsWalker(s: State, v: View, m: Move, c: nat)
    requires Inv(LoadThenStore, s, v) && Enabled(s, m) && s.calls[m.call].CollectDetach?
    requires c < |s.calls| && c != m.call && (s.calls[c].Walking() || s.calls[c].Collected?)
    ensures var t, w := Next(LoadThenStore, s, m), NextView(LoadThenStore, s, v, m);
            && c < |t.calls| == |w.held| && t.calls[c] == s.calls[c] && Claimed(t, w, c) == Claimed(s, v, c)
  {
    assert |v.held| == |s.calls|;
    hide Inv, Taker, Missed, Taken, NextView, Next, BagSafety.Splits, Claimed, HandOver;
    var d, missed, taken := Taker(LoadThenStore, s, v, m.call), Missed(LoadThenStore, s, v), Taken(LoadThenStore, s, v);
    BagSafety.DetachSplits(LoadThenStore, s, v, m.call);
    BagSafety.DetachShape(LoadThenStore, s, v, m);
    SharerDoesNotWalk(s, v, m.call, d, missed, taken, c);
    HandOverClaim(LoadThenStore, s, v, Next(LoadThenStore, s, m), m.call, d, missed, taken, c);
  }

  lemma SharerDoesNotWalk(s: State, v: View, c: nat, d: nat, missed: seq<Addr>, taken: seq<Addr>, e: nat)
    requires BagSafety.Splits(LoadThenStore, s, v, c, d, missed, taken)
    requires e < |s.calls| && !s.calls[e].CollectDetach?
    ensures taken == [] || d != e
    ensures |HandOver(v, d, missed, taken).held| == |v.held|
  {
  }

  /** So when it finishes it has printed exactly what it claimed at its store. */
  lemma {:induction false} CollectorPrintsItsClaim(s: State, v: View, c: nat, moves: seq<Move>)
    requires Inv(LoadThenStore, s, v) && ValidRun(LoadThenStore, s, moves) && PoliteRun(s, moves)
    requires c < |s.calls| && (s.calls[c].Walking() || s.calls[c].Collected?)
    ensures var t := Run(LoadThenStore, s, moves);
            c < |t.calls| && (t.calls[c].Collected? ==> t.calls[c].out == Claimed(s, v, c))
    decreases |moves|
  {
    if moves != [] {
      PoliteIsDisciplined(s, v, moves[0]);
      BagSafety.StepSafe(LoadThenStore, s, v, moves[0]);
      WalkerKeepsClaim(s, v, moves[0], c);
      CollectorPrintsItsClaim(Next(LoadThenStore, s, moves[0]), NextView(LoadThenStore, s, v, moves[0]), c, moves[1..]);
    } else {
      assert CallOk(LoadThenStore, s, v, c);
    }
  }

  // ----- the schedule of `main`: an insert lands in the window and is lost

  /** An insert running alone from a state where it is about to start. */
  lemma InsertAlone(form: Form, s: State, c: nat, n: Addr)
    requires !s.fault && c < |s.calls| && s.calls[c].InsertAlloc? && n != NULL && n !in s.heap
    ensures var moves := [Move(c, n), Move(c, n), Move(c, n), Move(c, n)];
            && ValidRun(form, s, moves)
            && Run(form, s, moves) == State(n, s.heap[n := Node(s.calls[c].value, s.head)],
                                            s.calls[c := Inserted(s.calls[c].value)], false)
  {
    var m := Move(c, n);
    var s1 := Next(form, s, m);
    var s2 := Next(form, s1, m);
    var s3 := Next(form, s2, m);
    var s4 := Next(form, s3, m);
    RunCons(form, s3, m, []);
    RunCons(form, s2, m, [m] + []);
    RunCons(form, s1, m, [m] + ([m] + []));
    RunCons(form, s, m, [m] + ([m] + ([m] + [])));
    assert [m] + ([m] + ([m] + ([m] + []))) == [m, m, m, m];
    assert s4.calls == s.calls[c := Inserted(s.calls[c].value)];
    assert s4.heap == s.heap[n := Node(s.calls[c].value, s.head)];
  }

  /** The lost insert of the repository's `main`: "4" is inserted, the collector loads the head,
      "5" is inserted, the collector stores null.  "5" was committed, yet the bag is empty and the
      collector has no claim to it. */
  lemma LostInsert() returns (s: State, before: seq<Move>, window: seq<Move>, t: State)
    ensures Initial(s) && s.calls == [InsertAlloc("4"), CollectLoad, InsertAlloc("5")]
    ensures ValidRun(LoadThenStore, s, before) && |Run(LoadThenStore, s, before).calls| == 3
    ensures Run(LoadThenStore, s, before).calls[1].CollectLoad?
    ensures var s1 := Run(LoadThenStore, s, before);
            && Enabled(s1, Move(1, NULL))
            && var s2 := Next(LoadThenStore, s1, Move(1, NULL));
               && ValidRun(LoadThenStore, s2, window)
               && var s3 := Run(LoadThenStore, s2, window);
                  Enabled(s3, Move(1, NULL)) && t == Next(LoadThenStore, s3, Move(1, NULL))
    ensures |t.calls| == 3 && t.head == NULL && t.calls[2] == Inserted("5") && t.calls[1] == Walk(1, [])
    ensures 1 in t.heap && t.heap[1] == Node("4", NULL)
  {
    s := State(NULL, map[], [InsertAlloc("4"), CollectLoad, InsertAlloc("5")], false);
    before := [Move(0, 1), Move(0, 1), Move(0, 1), Move(0, 1)];
    InsertAlone(LoadThenStore, s, 0, 1);
    assert before == [Move(0, 1), Move(0, 1), Move(0, 1), Move(0, 1)];
    var s1 := Run(LoadThenStore, s, before);
    var s2 := Next(LoadThenStore, s1, Move(1, NULL));
    window := [Move(2, 2), Move(2, 2), Move(2, 2), Move(2, 2)];
    InsertAlone(LoadThenStore, s2, 2, 2);
    t := Next(LoadThenStore, Run(LoadThenStore, s2, window), Move(1, NULL));
  }
}
