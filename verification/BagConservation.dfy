/** Conservation of values, for both collectors: whatever has been committed is listed, lost, or
    claimed by exactly one collector. */
module BagConservation {
  import opened Common
  import opened BagMachine
  import opened BagInvariant
  import opened BagRefinement
  import BagSafety

  /** The values whose insert has won its compare-and-swap. */
  ghost function Committed(s: State): multiset<Value> {
    Union(Commits(s))
  }

  ghost function Commits(s: State): (r: seq<multiset<Value>>)
    ensures |r| == |s.calls|
  {
    seq(|s.calls|, c requires 0 <= c < |s.calls| => CommittedBy(s.calls[c]))
  }

  ghost function CommittedBy(call: Call): multiset<Value> {
    if call.Inserted? then multiset{call.value} else multiset{}
  }

  ghost function Claims(s: State, v: View): (r: seq<multiset<Value>>)
    requires |s.calls| == |v.held|
    ensures |r| == |s.calls|
  {
    seq(|s.calls|, c requires 0 <= c < |s.calls| => multiset(Claimed(s, v, c)))
  }

  /** Committed values are listed, lost, or printed or still to be printed by one collector. */
  ghost predicate Balanced(s: State, v: View) {
    && |s.calls| == |v.held|
    && Committed(s) == multiset(Values(s.heap, v.list)) + multiset(Values(s.heap, v.lost)) + Union(Claims(s, v))
  }

  lemma StepCommits(form: Form, s: State, m: Move)
    requires Enabled(s, m)
    ensures Commits(Next(form, s, m))
            == Commits(s)[m.call := if CasWins(s, m) then multiset{s.calls[m.call].value} else multiset{}]
    ensures Commits(s)[m.call] == multiset{}
  {
  }

  lemma Replace<T>(bags: seq<multiset<T>>, c: nat, bag: multiset<T>)
    requires c < |bags| && bags[c] == multiset{}
    ensures Union(bags[c := bag]) == Union(bags) + bag
  {
    UnionUpdate(bags, c, bag);
    assert Union(bags[c := bag]) + multiset{} == Union(bags[c := bag]);
  }

  lemma ReplaceOne<T>(xs: seq<multiset<T>>, ys: seq<multiset<T>>, c: nat, bag: multiset<T>)
    requires |xs| == |ys| && c < |xs| && xs[c] == multiset{} && ys[c] == bag
    requires forall i :: 0 <= i < |xs| && i != c ==> ys[i] == xs[i]
    ensures Union(ys) == Union(xs) + bag
  {
    Replace(xs, c, bag);
    assert ys == xs[c := bag];
  }

  lemma CommittedKept(form: Form, s: State, m: Move)
    requires Enabled(s, m)
    ensures Committed(Next(form, s, m))
            == Committed(s) + (if CasWins(s, m) then multiset{s.calls[m.call].value} else multiset{})
  {
    StepCommits(form, s, m);
    Replace(Commits(s), m.call, if CasWins(s, m) then multiset{s.calls[m.call].value} else multiset{});
  }

  /** No step touches the data of a lost node. */
  lemma LostKept(form: Form, s: State, v: View, m: Move)
    requires Inv(form, s, v) && Enabled(s, m)
    ensures Values(Next(form, s, m).heap, v.lost) == Values(s.heap, v.lost)
  {
    assert CallOk(form, s, v, m.call);
    forall a | a in v.lost ensures Data(Next(form, s, m).heap, a) == Data(s.heap, a) {
      if s.calls[m.call].OwnsNode() || s.calls[m.call].WalkFree? {
        assert v.held[m.call][0] in v.held[m.call];
      }
    }
    ValuesFrame(s.heap, Next(form, s, m).heap, v.lost);
  }

  lemma StepperKeepsClaim(form: Form, s: State, v: View, m: Move)
    requires Inv(form, s, v) && Enabled(s, m) && !s.calls[m.call].CollectDetach?
    ensures |Next(form, s, m).calls| == |s.calls| == |NextView(form, s, v, m).held|
    ensures Claimed(Next(form, s, m), NextView(form, s, v, m), m.call) == Claimed(s, v, m.call)
  {
    var t, w, c := Next(form, s, m), NextView(form, s, v, m), m.call;
    assert CallOk(form, s, v, c);
    if s.calls[c].Walking() {
      WalkKeepsClaim(form, s, v, m);
    } else {
      assert Claimed(s, v, c) == [] && Claimed(t, w, c) == Values(t.heap, Unread(t, w, c));
      if t.calls[c].CollectDetach? {
        assert w.held[c] == [];
      }
    }
  }

  lemma QuietClaims(form: Form, s: State, v: View, m: Move)
    requires Inv(form, s, v) && Enabled(s, m) && !s.calls[m.call].CollectDetach?
    ensures |Next(form, s, m).calls| == |NextView(form, s, v, m).held|
    ensures Claims(Next(form, s, m), NextView(form, s, v, m)) == Claims(s, v)
  {
    var t, w, c := Next(form, s, m), NextView(form, s, v, m), m.call;
    StepperKeepsClaim(form, s, v, m);
    forall i | 0 <= i < |s.calls| && i != c ensures Claimed(t, w, i) == Claimed(s, v, i) {
      OthersKeepClaims(form, s, v, m, i);
    }
  }

  lemma QuietBalance(form: Form, s: State, v: View, m: Move)
    requires Inv(form, s, v) && Enabled(s, m) && !s.calls[m.call].CollectDetach? && Balanced(s, v)
    ensures Balanced(Next(form, s, m), NextView(form, s, v, m))
  {
    assert |v.held| == |s.calls|;
    hide Inv, Next, NextView, Values, Committed, Claims;
    var t, w := Next(form, s, m), NextView(form, s, v, m);
    LostUnchanged(form, s, v, m);
    QuietClaims(form, s, v, m);
    LostKept(form, s, v, m);
    CommittedKept(form, s, m);
    if CasWins(s, m) {
      var val := s.calls[m.call].value;
      WinningCasPushes(form, s, v, m);
      Pushed([val], Values(s.heap, v.list));
      AddOne(multiset{val}, multiset(Values(s.heap, v.list)), multiset(Values(s.heap, v.lost)), Union(Claims(s, v)));
    } else {
      ListKept(form, s, v, m);
    }
  }

  lemma LostUnchanged(form: Form, s: State, v: View, m: Move)
    requires Enabled(s, m) && !s.calls[m.call].CollectDetach? && |v.held| == |s.calls|
    ensures NextView(form, s, v, m).lost == v.lost
  {
  }

  lemma Pushed<T>(xs: seq<T>, ys: seq<T>)
    ensures multiset(xs + ys) == multiset(xs) + multiset(ys)
  {
  }

  lemma AddOne<T>(one: multiset<T>, list: multiset<T>, lost: multiset<T>, claims: multiset<T>)
    ensures list + lost + claims + one == (one + list) + lost + claims
    ensures list + lost + claims + multiset{} == list + lost + claims
  {
  }

  lemma ValuesSplit(heap: map<Addr, Node>, xs: seq<Addr>, ys: seq<Addr>)
    ensures Values(heap, xs + ys) == Values(heap, xs) + Values(heap, ys)
    ensures multiset(Values(heap, xs + ys)) == multiset(Values(heap, xs)) + multiset(Values(heap, ys))
  {
  }

  lemma HandOverClaim(form: Form, s: State, v: View, t: State, c: nat, d: nat, missed: seq<Addr>, taken: seq<Addr>,
      i: nat)
    requires Inv(form, s, v) && BagSafety.Splits(form, s, v, c, d, missed, taken) && i < |s.calls|
    requires t.heap == s.heap
    requires t.calls == s.calls[c := Walk(if form == Swap then s.head else s.calls[c].seen, [])]
    ensures i == d && taken != [] ==>
              Claimed(s, v, i) == [] && Claimed(t, HandOver(v, d, missed, taken), i) == Values(s.heap, taken)
    ensures i != d || taken == [] ==> Claimed(t, HandOver(v, d, missed, taken), i) == Claimed(s, v, i)
  {
    assert |v.held| == |s.calls|;
    hide Inv, BagSafety.Splits, HandOver;
    HandOverHeld(v, d, missed, taken, i);
    if taken != [] {
      TakerFacts(form, s, v, c, d, missed, taken);
    }
    DetachFacts(form, s, v, c, d, missed, taken);
  }

  lemma TakerFacts(form: Form, s: State, v: View, c: nat, d: nat, missed: seq<Addr>, taken: seq<Addr>)
    requires BagSafety.Splits(form, s, v, c, d, missed, taken) && taken != []
    ensures d < |s.calls| == |v.held| && s.calls[d].CollectDetach? && v.held[d] == []
  {
  }

  lemma DetachFacts(form: Form, s: State, v: View, c: nat, d: nat, missed: seq<Addr>, taken: seq<Addr>)
    requires BagSafety.Splits(form, s, v, c, d, missed, taken)
    ensures c < |s.calls| && s.calls[c].CollectDetach?
  {
  }

  lemma HandOverHeld(v: View, d: nat, missed: seq<Addr>, taken: seq<Addr>, i: nat)
    requires i < |v.held|
    ensures |HandOver(v, d, missed, taken).held| == |v.held|
    ensures HandOver(v, d, missed, taken).held[i] == if i == d && taken != [] then taken else v.held[i]
  {
  }

  lemma HandOverClaims(form: Form, s: State, v: View, t: State, c: nat, d: nat, missed: seq<Addr>, taken: seq<Addr>)
    requires Inv(form, s, v) && BagSafety.Splits(form, s, v, c, d, missed, taken)
    requires t.heap == s.heap
    requires t.calls == s.calls[c := Walk(if form == Swap then s.head else s.calls[c].seen, [])]
    ensures Union(Claims(t, HandOver(v, d, missed, taken))) == Union(Claims(s, v)) + multiset(Values(s.heap, taken))
  {
    var xs, ys := Claims(s, v), Claims(t, HandOver(v, d, missed, taken));
    forall i | 0 <= i < |xs|
      ensures i == d && taken != [] ==> xs[i] == multiset{} && ys[i] == multiset(Values(s.heap, taken))
      ensures i != d || taken == [] ==> ys[i] == xs[i]
    {
      HandOverClaim(form, s, v, t, c, d, missed, taken, i);
    }
    if taken == [] {
      assert ys == xs;
    } else {
      ReplaceOne(xs, ys, d, multiset(Values(s.heap, taken)));
    }
  }

  lemma HandOverBalance(form: Form, s: State, v: View, t: State, c: nat, d: nat, missed: seq<Addr>, taken: seq<Addr>)
    requires Inv(form, s, v) && BagSafety.Splits(form, s, v, c, d, missed, taken) && Balanced(s, v)
    requires t.heap == s.heap && Committed(t) == Committed(s)
    requires t.calls == s.calls[c := Walk(if form == Swap then s.head else s.calls[c].seen, [])]
    ensures Balanced(t, HandOver(v, d, missed, taken))
  {
    HandOverClaims(form, s, v, t, c, d, missed, taken);
    ValuesSplit(s.heap, missed, taken);
    ValuesSplit(s.heap, v.lost, missed);
    Regroup(Committed(s), multiset(Values(s.heap, missed)), multiset(Values(s.heap, taken)),
            multiset(Values(s.heap, v.lost)), Union(Claims(s, v)));
  }

  lemma Regroup<T>(all: multiset<T>, missed: multiset<T>, taken: multiset<T>, lost: multiset<T>, claims: multiset<T>)
    requires all == missed + taken + lost + claims
    ensures all == multiset{} + (lost + missed) + (claims + taken)
  {
  }

  lemma DetachCommits(form: Form, s: State, m: Move)
    requires Enabled(s, m) && s.calls[m.call].CollectDetach?
    ensures Committed(Next(form, s, m)) == Committed(s)
  {
    CommittedKept(form, s, m);
    assert Committed(s) + multiset{} == Committed(s);
  }

  lemma DetachBalance(form: Form, s: State, v: View, m: Move)
    requires Inv(form, s, v) && Enabled(s, m) && s.calls[m.call].CollectDetach? && Balanced(s, v)
    ensures Balanced(Next(form, s, m), NextView(form, s, v, m))
  {
    DetachCommits(form, s, m);
    BagSafety.DetachSplits(form, s, v, m.call);
    BagSafety.DetachShape(form, s, v, m);
    HandOverBalance(form, s, v, Next(form, s, m), m.call,
                    Taker(form, s, v, m.call), Missed(form, s, v), Taken(form, s, v));
  }

  /** No step of either form creates, drops or duplicates a value. */
  lemma StepBalance(form: Form, s: State, v: View, m: Move)
    requires Inv(form, s, v) && Enabled(s, m) && Balanced(s, v)
    ensures Balanced(Next(form, s, m), NextView(form, s, v, m))
  {
    if s.calls[m.call].CollectDetach? {
      DetachBalance(form, s, v, m);
    } else {
      QuietBalance(form, s, v, m);
    }
  }

  // ----- over whole runs

  lemma {:induction false} EmptyBags<T>(bags: seq<multiset<T>>)
    requires forall i :: 0 <= i < |bags| ==> bags[i] == multiset{}
    ensures Union(bags) == multiset{}
  {
    if bags != [] {
      EmptyBags(bags[1..]);
    }
  }

  /** An empty bag is balanced: nothing is committed and nothing is anywhere. */
  lemma InitialBalanced(s: State)
    requires Initial(s)
    ensures Balanced(s, EmptyView(s))
  {
    var v := EmptyView(s);
    forall c | 0 <= c < |s.calls| ensures Commits(s)[c] == multiset{} && Claims(s, v)[c] == multiset{} {
      assert s.calls[c].Start() && Claimed(s, v, c) == [];
    }
    EmptyBags(Commits(s));
    EmptyBags(Claims(s, v));
  }

  lemma SwapStep(s: State, v: View, m: Move)
    requires Inv(Swap, s, v) && Balanced(s, v) && Enabled(s, m)
    ensures |v.held| == |s.calls|
    ensures Inv(Swap, Next(Swap, s, m), NextView(Swap, s, v, m))
    ensures Balanced(Next(Swap, s, m), NextView(Swap, s, v, m))
    ensures |NextView(Swap, s, v, m).held| == |Next(Swap, s, m).calls|
  {
    assert |v.held| == |s.calls|;
    BagSafety.StepSafe(Swap, s, v, m);
    StepBalance(Swap, s, v, m);
  }

  lemma {:induction false} SwapRunBalanced(s: State, v: View, moves: seq<Move>)
    requires Inv(Swap, s, v) && Balanced(s, v) && ValidRun(Swap, s, moves)
    ensures |v.held| == |s.calls|
    ensures Inv(Swap, Run(Swap, s, moves), RunView(Swap, s, v, moves))
    ensures Balanced(Run(Swap, s, moves), RunView(Swap, s, v, moves))
    decreases |moves|
  {
    assert |v.held| == |s.calls|;
    hide Inv, Balanced, Next, NextView, Enabled;
    if moves != [] {
      SwapStep(s, v, moves[0]);
      SwapRunBalanced(Next(Swap, s, moves[0]), NextView(Swap, s, v, moves[0]), moves[1..]);
    }
  }

  /** Conservation for the swapping collector, at all times: in every run from an empty bag the
      committed values are those in the list and those printed, or still to be printed, by exactly one
      collector each.  Nothing is lost. */
  lemma SwapBagConserves(s: State, moves: seq<Move>)
    requires Initial(s) && ValidRun(Swap, s, moves)
    ensures var t, v := Run(Swap, s, moves), RunView(Swap, s, EmptyView(s), moves);
            && Inv(Swap, t, v) && v.lost == []
            && Committed(t) == multiset(Values(t.heap, v.list)) + Union(Claims(t, v))
  {
    InitialInv(Swap, s);
    InitialBalanced(s);
    SwapRunBalanced(s, EmptyView(s), moves);
    var t, v := Run(Swap, s, moves), RunView(Swap, s, EmptyView(s), moves);
    assert v.lost == [] && Balanced(t, v);
    assert multiset(Values(t.heap, v.lost)) == multiset{};
    assert multiset(Values(t.heap, v.list)) + multiset{} == multiset(Values(t.heap, v.list));
  }

  // ----- when all calls are done

  ghost predicate AllDone(s: State) { forall c :: 0 <= c < |s.calls| ==> s.calls[c].Done() }

  /** What the collectors have printed. */
  ghost function Printed(s: State): (r: seq<multiset<Value>>)
    ensures |r| == |s.calls|
  {
    seq(|s.calls|, c requires 0 <= c < |s.calls| => multiset(Output(s.calls[c])))
  }

  /** The value a call inserts. */
  ghost function RequestedBy(call: Call): multiset<Value> {
    if call.Inserting() || call.Inserted? then multiset{call.value} else multiset{}
  }

  ghost function Requests(s: State): (r: seq<multiset<Value>>)
    ensures |r| == |s.calls|
  {
    seq(|s.calls|, c requires 0 <= c < |s.calls| => RequestedBy(s.calls[c]))
  }

  lemma StepRequests(form: Form, s: State, m: Move)
    requires Enabled(s, m)
    ensures Requests(Next(form, s, m)) == Requests(s)
  {
    StepperRequests(form, s, m);
    hide Next, Enabled;
  }

  lemma StepperRequests(form: Form, s: State, m: Move)
    requires Enabled(s, m)
    ensures var t := Next(form, s, m);
            && |t.calls| == |s.calls|
            && (forall c :: 0 <= c < |s.calls| && c != m.call ==> t.calls[c] == s.calls[c])
            && RequestedBy(t.calls[m.call]) == RequestedBy(s.calls[m.call])
  {
    var call, call' := s.calls[m.call], Next(form, s, m).calls[m.call];
    assert (call.Inserting() || call.Inserted?) == (call'.Inserting() || call'.Inserted?);
    assert call.Inserting() || call.Inserted? ==> call'.value == call.value;
    hide Next, Enabled;
  }

  lemma {:induction false} RunRequests(form: Form, s: State, moves: seq<Move>)
    requires ValidRun(form, s, moves)
    ensures Requests(Run(form, s, moves)) == Requests(s)
    decreases |moves|
  {
    hide Next, Enabled, Requests;
    if moves != [] {
      StepRequests(form, s, moves[0]);
      RunRequests(form, Next(form, s, moves[0]), moves[1..]);
    }
  }

  lemma DoneClaims(form: Form, s: State, v: View)
    requires Inv(form, s, v) && AllDone(s)
    ensures |v.held| == |s.calls|
    ensures Claims(s, v) == Printed(s) && Commits(s) == Requests(s)
  {
    assert |v.held| == |s.calls|;
    forall c | 0 <= c < |s.calls| ensures Claimed(s, v, c) == Output(s.calls[c]) {
      assert s.calls[c].Done() && CallOk(form, s, v, c);
    }
  }

  /** So when all calls are done, the inserted values are exactly those left in the list and those the
      collectors have printed, as often as they were inserted. */
  lemma SwapBagAccounts(s: State, moves: seq<Move>)
    requires Initial(s) && ValidRun(Swap, s, moves) && AllDone(Run(Swap, s, moves))
    ensures var t := Run(Swap, s, moves);
            exists list :: Chain(t.heap, t.head, list)
                           && Union(Requests(s)) == multiset(Values(t.heap, list)) + Union(Printed(t))
  {
    SwapBagConserves(s, moves);
    RunRequests(Swap, s, moves);
    var t, v := Run(Swap, s, moves), RunView(Swap, s, EmptyView(s), moves);
    DoneClaims(Swap, t, v);
    assert Chain(t.heap, t.head, v.list);
  }
}
