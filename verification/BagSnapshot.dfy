/** What a shipped collector prints: along every polite run exactly the values that were in the bag when
    it loaded the head, whoever stores null in between. */
module BagSnapshot {
  import opened Common
  import opened BagMachine
  import opened BagInvariant
  import opened BagRefinement
  import opened BagConservation
  import opened BagShipped
  import BagSafety

  /** The collect has loaded the head. */
  predicate Underway(call: Call) { call.CollectDetach? || call.Walking() || call.Collected? }

  /** What a collect that has loaded the head has printed and is going to print: before its store, the
      values from the node it loaded on, which are still listed or already its own. */
  function Promised(s: State, v: View, c: nat): seq<Value>
    requires c < |s.calls| == |v.held|
  {
    if s.calls[c].CollectDetach? then Values(s.heap, Snapshot(s, v, c)) else Claimed(s, v, c)
  }

  function Snapshot(s: State, v: View, c: nat): seq<Addr>
    requires c < |s.calls| == |v.held| && s.calls[c].CollectDetach?
  {
    if s.calls[c].seen in v.list then Suffix(v.list, s.calls[c].seen) else v.held[c]
  }

  lemma SizesKept(form: Form, s: State, v: View, m: Move)
    requires Enabled(s, m) && |v.held| == |s.calls|
    ensures |Next(form, s, m).calls| == |s.calls| == |NextView(form, s, v, m).held|
    ensures forall c :: 0 <= c < |s.calls| && c != m.call ==> Next(form, s, m).calls[c] == s.calls[c]
  {
  }

  /** At its load the collect is promised the whole bag. */
  lemma LoadPromises(s: State, v: View, m: Move)
    requires Inv(LoadThenStore, s, v) && Enabled(s, m) && s.calls[m.call].CollectLoad?
    ensures var t, w := Next(LoadThenStore, s, m), NextView(LoadThenStore, s, v, m);
            && m.call < |t.calls| == |w.held| && t.calls[m.call] == CollectDetach(s.head)
            && Promised(t, w, m.call) == Values(s.heap, v.list)
  {
    assert CallOk(LoadThenStore, s, v, m.call);
    ChainEnd(s.heap, s.head, v.list);
    if v.list != [] {
      assert v.list[0] in v.list;
    } else {
      assert v.held[m.call] == [];
    }
  }

  /** The snapshot's nodes are listed or held by the collect. */
  lemma SnapshotPlaces(s: State, v: View, c: nat)
    requires c < |s.calls| == |v.held| && s.calls[c].CollectDetach?
    ensures forall a :: a in Snapshot(s, v, c) ==> a in v.list || a in v.held[c]
  {
  }

  /** A step of another call that detaches nothing and publishes nothing. */
  lemma QuietKeepsPromise(s: State, v: View, m: Move, c: nat)
    requires Inv(LoadThenStore, s, v) && Enabled(s, m) && c < |s.calls| && c != m.call
    requires s.calls[c].CollectDetach? && !s.calls[m.call].CollectDetach? && !CasWins(s, m)
    ensures var t, w := Next(LoadThenStore, s, m), NextView(LoadThenStore, s, v, m);
            c < |t.calls| == |w.held| && t.calls[c] == s.calls[c] && Promised(t, w, c) == Promised(s, v, c)
  {
    var t, w := Next(LoadThenStore, s, m), NextView(LoadThenStore, s, v, m);
    SizesKept(LoadThenStore, s, v, m);
    ListKept(LoadThenStore, s, v, m);
    OtherHeld(LoadThenStore, s, v, m, c);
    HeldDataKept(LoadThenStore, s, v, m, c);
    ListDataKept(s, v, m);
    SnapshotPlaces(s, v, c);
    hide Inv, Next, NextView, Suffix;
    assert Snapshot(t, w, c) == Snapshot(s, v, c);
    ValuesFrame(s.heap, t.heap, Snapshot(s, v, c));
  }

  lemma OtherHeld(form: Form, s: State, v: View, m: Move, c: nat)
    requires Inv(form, s, v) && Enabled(s, m) && c < |s.calls| && c != m.call && !s.calls[m.call].CollectDetach?
    ensures |NextView(form, s, v, m).held| == |v.held| && NextView(form, s, v, m).held[c] == v.held[c]
  {
  }

  lemma ListDataKept(s: State, v: View, m: Move)
    requires Inv(LoadThenStore, s, v) && Enabled(s, m)
    ensures forall a :: a in v.list ==> Data(Next(LoadThenStore, s, m).heap, a) == Data(s.heap, a)
  {
    forall a | a in v.list ensures Data(Next(LoadThenStore, s, m).heap, a) == Data(s.heap, a) {
      PublishedLinksAreStable(LoadThenStore, s, v, m, a);
    }
  }

  /** A push puts its node in front of the snapshot. */
  lemma PushKeepsPromise(s: State, v: View, m: Move, c: nat)
    requires Inv(LoadThenStore, s, v) && Enabled(s, m) && c < |s.calls| && c != m.call
    requires s.calls[c].CollectDetach? && CasWins(s, m)
    ensures var t, w := Next(LoadThenStore, s, m), NextView(LoadThenStore, s, v, m);
            c < |t.calls| == |w.held| && t.calls[c] == s.calls[c] && Promised(t, w, c) == Promised(s, v, c)
  {
    var t, w := Next(LoadThenStore, s, m), NextView(LoadThenStore, s, v, m);
    SizesKept(LoadThenStore, s, v, m);
    OtherHeld(LoadThenStore, s, v, m, c);
    WinningCasPushes(LoadThenStore, s, v, m);
    PushedNotSeen(s, v, m, c);
    hide Inv, Next, NextView;
    var n, seen := s.calls[m.call].node, s.calls[c].seen;
    assert w.list == [n] + v.list && w.list[1..] == v.list;
    assert seen in w.list <==> seen in v.list;
    assert Suffix(w.list, seen) == Suffix(v.list, seen);
  }

  lemma PushedNotSeen(s: State, v: View, m: Move, c: nat)
    requires Inv(LoadThenStore, s, v) && Enabled(s, m) && c < |s.calls| && c != m.call
    requires s.calls[c].CollectDetach? && CasWins(s, m)
    ensures s.calls[c].seen != s.calls[m.call].node
  {
    assert CallOk(LoadThenStore, s, v, m.call);
    var n := s.calls[m.call].node;
    assert n in v.held[m.call];
    BagSafety.SeenNotHeld(LoadThenStore, s, v, m.call, n, c);
  }

  /** When another collector stores null, a listed snapshot becomes the collect's own. */
  lemma DetachKeepsPromise(s: State, v: View, m: Move, c: nat)
    requires Inv(LoadThenStore, s, v) && Enabled(s, m) && c < |s.calls| && c != m.call
    requires s.calls[c].CollectDetach? && s.calls[m.call].CollectDetach?
    ensures var t, w := Next(LoadThenStore, s, m), NextView(LoadThenStore, s, v, m);
            c < |t.calls| == |w.held| && t.calls[c] == s.calls[c] && Promised(t, w, c) == Promised(s, v, c)
  {
    var t, w := Next(LoadThenStore, s, m), NextView(LoadThenStore, s, v, m);
    SizesKept(LoadThenStore, s, v, m);
    SnapshotHandedOver(s, v, m, c);
    BagSafety.DetachShape(LoadThenStore, s, v, m);
    hide Inv, Next, NextView, Taker, Missed, Taken;
  }

  /** What a store of null makes the collect's own is its snapshot. */
  lemma SnapshotHandedOver(s: State, v: View, m: Move, c: nat)
    requires Inv(LoadThenStore, s, v) && Enabled(s, m) && c < |s.calls|
    requires s.calls[c].CollectDetach? && s.calls[m.call].CollectDetach?
    ensures |v.held| == |s.calls|
    ensures var w := NextView(LoadThenStore, s, v, m);
            c < |w.held| && w.list == [] && w.held[c] == Snapshot(s, v, c)
  {
    var d, missed, taken := Taker(LoadThenStore, s, v, m.call), Missed(LoadThenStore, s, v), Taken(LoadThenStore, s, v);
    assert |v.held| == |s.calls|;
    BagSafety.DetachSplits(LoadThenStore, s, v, m.call);
    BagSafety.DetachShape(LoadThenStore, s, v, m);
    hide Inv, Next, NextView;
    HandOverHeld(v, d, missed, taken, c);
    if Shares(s, v.list, c) {
      assert d == c && taken != [];
      assert taken == Suffix(v.list, s.calls[c].seen);
    } else {
      assert d != c || taken == [];
    }
  }

  /** The collect's own store turns the promise into its claim. */
  lemma OwnDetachKeepsPromise(s: State, v: View, m: Move)
    requires Inv(LoadThenStore, s, v) && Enabled(s, m) && s.calls[m.call].CollectDetach?
    ensures var t, w := Next(LoadThenStore, s, m), NextView(LoadThenStore, s, v, m);
            && m.call < |t.calls| == |w.held| && t.calls[m.call].Walk?
            && Promised(t, w, m.call) == Promised(s, v, m.call)
  {
    SizesKept(LoadThenStore, s, v, m);
    SnapshotHandedOver(s, v, m, m.call);
    StoreClaims(Next(LoadThenStore, s, m), s, v, m);
  }

  lemma StoreClaims(t: State, s: State, v: View, m: Move)
    requires Enabled(s, m) && s.calls[m.call].CollectDetach? && |v.held| == |s.calls| && t == Next(LoadThenStore, s, m)
    requires m.call < |NextView(LoadThenStore, s, v, m).held|
    ensures |t.calls| == |s.calls| == |NextView(LoadThenStore, s, v, m).held| && t.calls[m.call].Walk?
            && t.heap == s.heap
    ensures Claimed(t, NextView(LoadThenStore, s, v, m), m.call)
            == Values(s.heap, NextView(LoadThenStore, s, v, m).held[m.call])
  {
    SizesKept(LoadThenStore, s, v, m);
    BagSafety.DetachShape(LoadThenStore, s, v, m);
    hide NextView, Next;
    WalkClaim(t, NextView(LoadThenStore, s, v, m), m.call);
  }

  /** No polite step of anybody changes what a collect is promised. */
  lemma StepKeepsPromise(s: State, v: View, m: Move, c: nat)
    requires Inv(LoadThenStore, s, v) && Enabled(s, m) && Polite(s, m)
    requires c < |s.calls| && Underway(s.calls[c])
    ensures |v.held| == |s.calls|
    ensures var t, w := Next(LoadThenStore, s, m), NextView(LoadThenStore, s, v, m);
            && c < |t.calls| == |w.held| && Underway(t.calls[c]) && (c != m.call ==> t.calls[c] == s.calls[c])
            && Promised(t, w, c) == Promised(s, v, c)
  {
    assert |v.held| == |s.calls|;
    SizesKept(LoadThenStore, s, v, m);
    hide Inv, Next, NextView, Polite, Enabled;
    if !s.calls[c].CollectDetach? {
      WalkerKeepsClaim(s, v, m, c);
    } else if c == m.call {
      OwnDetachKeepsPromise(s, v, m);
    } else if s.calls[m.call].CollectDetach? {
      DetachKeepsPromise(s, v, m, c);
    } else if CasWins(s, m) {
      PushKeepsPromise(s, v, m, c);
    } else {
      QuietKeepsPromise(s, v, m, c);
    }
  }

  lemma {:induction false} RunKeepsPromise(s: State, v: View, moves: seq<Move>, c: nat)
    requires Inv(LoadThenStore, s, v) && ValidRun(LoadThenStore, s, moves) && PoliteRun(s, moves)
    requires c < |s.calls| && Underway(s.calls[c])
    ensures |v.held| == |s.calls|
    ensures var t, w := Run(LoadThenStore, s, moves), RunView(LoadThenStore, s, v, moves);
            && Inv(LoadThenStore, t, w) && c < |t.calls| == |w.held| && Underway(t.calls[c])
            && Promised(t, w, c) == Promised(s, v, c)
    decreases |moves|
  {
    assert |v.held| == |s.calls|;
    hide Inv, Next, NextView, Polite, Enabled, Promised;
    if moves != [] {
      StepKeepsPromise(s, v, moves[0], c);
      PoliteStepIsSafe(s, v, moves[0]);
      RunKeepsPromise(Next(LoadThenStore, s, moves[0]), NextView(LoadThenStore, s, v, moves[0]), moves[1..], c);
    }
  }

  /** A shipped collector prints exactly what the bag held when it loaded the head: from every reachable
      state, along every polite run, with any number of inserters and of other collectors. */
  lemma CollectorPrintsSnapshot(s: State, v: View, c: nat, moves: seq<Move>)
    requires Inv(LoadThenStore, s, v) && Enabled(s, Move(c, NULL)) && s.calls[c].CollectLoad?
             && Polite(s, Move(c, NULL))
    requires var t := Next(LoadThenStore, s, Move(c, NULL)); ValidRun(LoadThenStore, t, moves) && PoliteRun(t, moves)
    ensures var t := Run(LoadThenStore, Next(LoadThenStore, s, Move(c, NULL)), moves);
            c < |t.calls| && (t.calls[c].Collected? ==> t.calls[c].out == Values(s.heap, v.list))
  {
    var m := Move(c, NULL);
    var t, w := Next(LoadThenStore, s, m), NextView(LoadThenStore, s, v, m);
    LoadPromises(s, v, m);
    PoliteStepIsSafe(s, v, m);
    RunKeepsPromise(t, w, moves, c);
    var t', w' := Run(LoadThenStore, t, moves), RunView(LoadThenStore, t, w, moves);
    if t'.calls[c].Collected? {
      CollectedClaim(LoadThenStore, t', w', c);
    }
  }
}
