/** The bag as the source writes it: an object whose fields the atomic accesses update, an insert
    with its retry loop, a collect with its freeing loop and a print that walks the list.  Between
    any two accesses of a call the environment may let other calls take any steps. */
module BagCode {
  import opened BagMachine
  import opened BagInvariant
  import opened BagProgress
  import opened BagRefinement
  import BagSafety
  import BagShipped
  import BagSnapshot

  class ConcBag {
    var head: Addr
    var heap: map<Addr, Node>
    var calls: seq<Call>
    const form: Form
    ghost var view: View
    ghost var history: seq<Move>
    ghost const start: State

    ghost function Snapshot(): State
      reads this
    {
      State(head, heap, calls, false)
    }

    /** The state satisfies the heap invariant and was reached from an empty bag by the moves in
        `history`. */
    ghost predicate Valid()
      reads this
    {
      && |view.held| == |calls| && Inv(form, Snapshot(), view)
      && Initial(start) && ValidRun(form, start, history)
      && Run(form, start, history) == Snapshot()
    }

    /** The values in the bag, latest first. */
    ghost function Contents(): seq<Value>
      reads this
    {
      Values(heap, view.list)
    }

    /** What collect call c, from its load of the head on, has printed and will print. */
    ghost function Claim(c: nat): seq<Value>
      requires c < |calls| == |view.held|
      reads this
    {
      BagSnapshot.Promised(Snapshot(), view, c)
    }

    constructor (form: Form, calls: seq<Call>)
      requires forall c :: 0 <= c < |calls| ==> calls[c].Start()
      ensures Valid() && this.form == form && this.calls == calls && head == NULL && heap == map[]
      ensures history == []
    {
      this.form, this.calls, head, heap := form, calls, NULL, map[];
      var s := State(NULL, map[], calls, false);
      start, history, view := s, [], EmptyView(s);
      new;
      InitialInv(form, s);
    }

    /** Bookkeeping after an access by call m.call: the fields hold the machine's next state. */
    ghost method Record(s: State, m: Move)
      requires Inv(form, s, view) && Enabled(s, m) && Disciplined(form, s, view.list, m)
      requires Initial(start) && ValidRun(form, start, history) && Run(form, start, history) == s
      requires Next(form, s, m) == Snapshot() || Next(form, s, m) == Snapshot().(fault := true)
      modifies `view, `history
      ensures Valid() && Next(form, s, m) == Snapshot()
      ensures Measure(Snapshot()) < Measure(s)
      ensures view == NextView(form, s, old(view), m) && history == old(history) + [m]
    {
      BagSafety.StepSafe(form, s, view, m);
      StepLowersMeasure(form, s, m);
      RunCons(form, s, m, []);
      RunAppend(form, start, history, [m]);
      view, history := NextView(form, s, view, m), history + [m];
    }

    /** A step of some other call, taken from the machine.  With the shipped collector other collectors
        may load the head whenever that is polite. */
    method OtherStep(c: nat, m: Move)
      requires Valid() && Enabled(Snapshot(), m) && c < |calls| && c != m.call
      requires Disciplined(form, Snapshot(), view.list, m)
      modifies this
      ensures Valid() && |calls| == old(|calls|) && calls[c] == old(calls[c])
      ensures Settled(form, calls[c]) ==> Claim(c) == old(Claim(c))
      ensures history == old(history) + [m] && Measure(Snapshot()) < old(Measure(Snapshot()))
    {
      ghost var s, v := Snapshot(), view;
      StepWriters(form, s, m);
      var t := Next(form, State(head, heap, calls, false), m);
      head, heap, calls := t.head, t.heap, t.calls;
      assert Next(form, s, m) == Snapshot() || Next(form, s, m) == Snapshot().(fault := true);
      OtherStepFacts(form, s, v, m, c);
      Record(s, m);
    }

    /** The nodes of the list, by a walk along it. */
    method ListNodes() returns (list: seq<Addr>)
      requires Valid()
      ensures list == view.list
    {
      assert Chain(heap, head, view.list);
      hide Inv, Run, ValidRun, Initial, Chain;
      list := [];
      var node := head;
      assert view.list[0..] == view.list;
      while node != NULL
        invariant |list| <= |view.list| && list == view.list[..|list|] && Chain(heap, node, view.list[|list|..])
        decreases |view.list| - |list|
      {
        NextNode(heap, node, view.list, |list|);
        list := list + [node];
        node := heap[node].next;
      }
      BagShipped.ChainEnd(heap, node, view.list[|list|..]);
    }

    /** Other calls take the given steps, as far as they can, and as far as it is polite if the collector
        is the shipped one. */
    method Interfere(c: nat, moves: seq<Move>)
      requires Valid() && c < |calls|
      modifies this
      ensures Valid() && |calls| == old(|calls|) && calls[c] == old(calls[c])
      ensures Settled(form, calls[c]) ==> Claim(c) == old(Claim(c))
      ensures Measure(Snapshot()) <= old(Measure(Snapshot())) && old(history) <= history
      ensures moves == [] ==> Snapshot() == old(Snapshot()) && view == old(view)
    {
      for i := 0 to |moves|
        invariant Valid() && |calls| == old(|calls|) && calls[c] == old(calls[c])
        invariant Settled(form, calls[c]) ==> Claim(c) == old(Claim(c))
        invariant Measure(Snapshot()) <= old(Measure(Snapshot())) && old(history) <= history
        invariant moves == [] ==> Snapshot() == old(Snapshot()) && view == old(view)
      {
        var m, s := moves[i], State(head, heap, calls, false);
        var list := ListNodes();
        if m.call != c && Enabled(s, m) && Disciplined(form, s, list, m) {
          OtherStep(c, m);
        }
      }
    }

    // ----- the accesses of an insert

    method Allocate(c: nat) returns (n: Addr)
      requires Valid() && c < |calls| && calls[c].InsertAlloc?
      modifies this
      ensures Valid() && calls == old(calls)[c := InsertLoad(old(calls)[c].value, n)]
      ensures n != NULL && n !in old(heap) && head == old(head)
      ensures heap == old(heap)[n := Node(old(calls)[c].value, NULL)] && Contents() == old(Contents())
      ensures old(history) < history && Measure(Snapshot()) < old(Measure(Snapshot()))
    {
      ghost var s, v := Snapshot(), view;
      FreshAddressExists(heap);
      n :| n != NULL && n !in heap;
      heap := heap[n := Node(calls[c].value, NULL)];
      calls := calls[c := InsertLoad(calls[c].value, n)];
      Record(s, Move(c, n));
      ListKept(form, s, v, Move(c, n));
    }

    method LoadHead(c: nat)
      requires Valid() && c < |calls| && calls[c].InsertLoad?
      modifies this
      ensures Valid() && head == old(head) && heap == old(heap) && Contents() == old(Contents())
      ensures calls == old(calls)[c := InsertLink(old(calls)[c].value, old(calls)[c].node, head)]
      ensures old(history) < history && Measure(Snapshot()) < old(Measure(Snapshot()))
    {
      ghost var s := Snapshot();
      calls := calls[c := InsertLink(calls[c].value, calls[c].node, head)];
      Record(s, Move(c, NULL));
    }

    method StoreNext(c: nat)
      requires Valid() && c < |calls| && calls[c].InsertLink?
      modifies this
      ensures Valid() && head == old(head)
      ensures var InsertLink(v, n, seen) := old(calls)[c];
              && n in old(heap) && heap == old(heap)[n := old(heap)[n].(next := seen)]
              && calls == old(calls)[c := InsertCas(v, n, seen)]
      ensures Contents() == old(Contents())
      ensures old(history) < history && Measure(Snapshot()) < old(Measure(Snapshot()))
    {
      ghost var s, w := Snapshot(), view;
      assert CallOk(form, s, view, c);
      var InsertLink(v, n, seen) := calls[c];
      heap := heap[n := heap[n].(next := seen)];
      calls := calls[c := InsertCas(v, n, seen)];
      Record(s, Move(c, NULL));
      ListKept(form, s, w, Move(c, NULL));
    }

    method CompareAndSwap(c: nat) returns (won: bool)
      requires Valid() && c < |calls| && calls[c].InsertCas?
      modifies this
      ensures Valid() && heap == old(heap)
      ensures var InsertCas(v, n, seen) := old(calls)[c];
              && (won <==> old(head) == seen)
              && head == (if won then n else old(head))
              && calls == old(calls)[c := if won then Inserted(v) else InsertLoad(v, n)]
              && Contents() == (if won then [v] else []) + old(Contents())
      ensures old(history) < history && Measure(Snapshot()) < old(Measure(Snapshot()))
    {
      ghost var s, w := Snapshot(), view;
      var InsertCas(v, n, seen) := calls[c];
      won := head == seen;
      if won {
        head := n;
        calls := calls[c := Inserted(v)];
      } else {
        calls := calls[c := InsertLoad(v, n)];
      }
      Record(s, Move(c, NULL));
      if won {
        WinningCasPushes(form, s, w, Move(c, NULL));
      }
    }

    /** `insert`: allocate, then load, link and compare-and-swap until the swap wins.  The loop ends
        under every interference, because every step of every call lowers the measure. */
    method Insert(c: nat, env: nat -> seq<Move>)
      requires Valid() && c < |calls| && calls[c].InsertAlloc?
      modifies this
      ensures Valid() && |calls| == old(|calls|) && calls[c] == Inserted(old(calls[c]).value)
      ensures old(history) < history
      ensures Quiet(env) ==> Contents() == [old(calls[c]).value] + old(Contents())
    {
      var n := Allocate(c);
      var tick, won := 0, false;
      while !won
        invariant Valid() && |calls| == old(|calls|) && old(history) < history
        invariant Quiet(env) ==> Contents() == (if won then [old(calls[c]).value] else []) + old(Contents())
        invariant calls[c] == if won then Inserted(old(calls[c]).value) else InsertLoad(old(calls[c]).value, n)
        decreases Measure(Snapshot())
      {
        Interfere(c, env(tick));
        LoadHead(c);
        Interfere(c, env(tick + 1));
        StoreNext(c);
        Interfere(c, env(tick + 2));
        won := CompareAndSwap(c);
        tick := tick + 3;
      }
    }
  
    // ----- the accesses of a collect

    method LoadToCollect(c: nat) returns (seen: Addr)
      requires Valid() && c < |calls| && calls[c].CollectLoad?
      requires form == LoadThenStore ==> BagShipped.Polite(Snapshot(), Move(c, NULL))
      modifies this
      ensures Valid() && head == old(head) && heap == old(heap) && Contents() == old(Contents()) && seen == head
      ensures calls == old(calls)[c := if form == Swap && seen == NULL then Collected([]) else CollectDetach(seen)]
      ensures seen == NULL ==> Contents() == []
      ensures form == LoadThenStore ==> Claim(c) == old(Contents())
      ensures view == old(view)
      ensures old(history) < history && Measure(Snapshot()) < old(Measure(Snapshot()))
    {
      ghost var s, w := Snapshot(), view;
      if form == LoadThenStore {
        BagShipped.PoliteIsDisciplined(s, w, Move(c, NULL));
        BagSnapshot.LoadPromises(s, w, Move(c, NULL));
      }
      seen := head;
      calls := calls[c := if form == Swap && seen == NULL then Collected([]) else CollectDetach(seen)];
      Record(s, Move(c, NULL));
      BagShipped.ChainEnd(heap, head, view.list);
    }

    /** `swap`, or `store` of null. */
    method Detach(c: nat)
      requires Valid() && c < |calls| && calls[c].CollectDetach?
      modifies this
      ensures Valid() && head == NULL && heap == old(heap) && Contents() == []
      ensures calls == old(calls)[c := Walk(if form == Swap then old(head) else old(calls)[c].seen, [])]
      ensures form == LoadThenStore ==> Claim(c) == old(Claim(c))
      ensures form == Swap || old(calls)[c].seen == old(head)
              ==> Claim(c) == old(Contents()) && view.lost == old(view).lost
      ensures old(history) < history && Measure(Snapshot()) < old(Measure(Snapshot()))
    {
      ghost var s, w := Snapshot(), view;
      assert CallOk(form, s, w, c);
      calls := calls[c := Walk(if form == Swap then head else calls[c].seen, [])];
      head := NULL;
      Record(s, Move(c, NULL));
      DetachClaims(form, s, w, c);
      if form == LoadThenStore {
        BagSnapshot.OwnDetachKeepsPromise(s, w, Move(c, NULL));
      }
    }

    method ReadNode(c: nat)
      requires Valid() && c < |calls| && calls[c].Walk? && calls[c].cur != NULL
      modifies this
      ensures Valid() && head == old(head) && heap == old(heap) && view == old(view)
      ensures var Walk(cur, out) := old(calls)[c];
              cur in heap && calls == old(calls)[c := WalkNext(cur, out + [heap[cur].data])]
      ensures Claim(c) == old(Claim(c))
      ensures old(history) < history && Measure(Snapshot()) < old(Measure(Snapshot()))
    {
      ghost var s, w := Snapshot(), view;
      WalkMoves(form, s, w, c);
      hide Inv, Measure, ValidRun, Run, Claimed, Initial, Next, NextView, Enabled, Disciplined;
      var Walk(cur, out) := calls[c];
      calls := calls[c := WalkNext(cur, out + [heap[cur].data])];
      Record(s, Move(c, NULL));
      WalkKeepsClaim(form, s, w, Move(c, NULL));
    }

    method FollowNode(c: nat)
      requires Valid() && c < |calls| && calls[c].WalkNext?
      modifies this
      ensures Valid() && head == old(head) && heap == old(heap) && view == old(view)
      ensures var WalkNext(cur, out) := old(calls)[c];
              cur in heap && calls == old(calls)[c := WalkFree(cur, heap[cur].next, out)]
      ensures Claim(c) == old(Claim(c))
      ensures old(history) < history && Measure(Snapshot()) < old(Measure(Snapshot()))
    {
      ghost var s, w := Snapshot(), view;
      WalkMoves(form, s, w, c);
      hide Inv, Measure, ValidRun, Run, Claimed, Initial, Next, NextView, Enabled, Disciplined;
      var WalkNext(cur, out) := calls[c];
      calls := calls[c := WalkFree(cur, heap[cur].next, out)];
      Record(s, Move(c, NULL));
      WalkKeepsClaim(form, s, w, Move(c, NULL));
    }

    method FreeNode(c: nat)
      requires Valid() && c < |calls| && calls[c].WalkFree?
      modifies this
      ensures Valid() && head == old(head) && view.list == old(view).list && view.lost == old(view).lost
      ensures var WalkFree(cur, next, out) := old(calls)[c];
              cur in old(heap) && heap == old(heap) - {cur} && calls == old(calls)[c := Walk(next, out)]
      ensures Claim(c) == old(Claim(c))
      ensures old(history) < history && Measure(Snapshot()) < old(Measure(Snapshot()))
    {
      ghost var s, w := Snapshot(), view;
      WalkMoves(form, s, w, c);
      hide Inv, Measure, ValidRun, Run, Claimed, Initial, Next, NextView, Enabled, Disciplined;
      var WalkFree(cur, next, out) := calls[c];
      heap := heap - {cur};
      calls := calls[c := Walk(next, out)];
      Record(s, Move(c, NULL));
      WalkKeepsClaim(form, s, w, Move(c, NULL));
    }

    /** The loop test fails: the collect returns, and has printed its whole claim. */
    method FinishWalk(c: nat) returns (out: seq<Value>)
      requires Valid() && c < |calls| && calls[c].Walk? && calls[c].cur == NULL
      modifies this
      ensures Valid() && head == old(head) && heap == old(heap) && view == old(view)
      ensures calls == old(calls)[c := Collected(out)] && out == old(Claim(c))
      ensures old(history) < history
    {
      ghost var s, w := Snapshot(), view;
      assert CallOk(form, s, w, c);
      BagShipped.ChainEnd(s.heap, NULL, w.held[c]);
      out := calls[c].out;
      calls := calls[c := Collected(out)];
      Record(s, Move(c, NULL));
    }

    /** `collect`, in either form: detach the list, then print and free it node by node.  It prints
        exactly the values that the bag held after the moves `at`: with the swap when the list was
        detached, or at the load that found it empty; with the shipped form when the head was loaded. */
    method Collect(c: nat, env: nat -> seq<Move>) returns (out: seq<Value>, ghost at: seq<Move>)
      requires Valid() && c < |calls| && calls[c].CollectLoad?
      requires form == LoadThenStore ==> BagShipped.Polite(Snapshot(), Move(c, NULL))
      modifies this
      ensures Valid() && |calls| == old(|calls|) && calls[c] == Collected(out)
      ensures old(history) <= at < history && ValidRun(form, start, at)
      ensures BagHolds(Run(form, start, at), out)
      ensures form == LoadThenStore ==> at == old(history)
      ensures Quiet(env) ==> out == old(Contents()) && Contents() == [] && view.lost == old(view).lost
    {
      hide Inv, Measure, Initial, Run, ValidRun, BagHolds, BagSnapshot.Promised, BagShipped.Polite;
      at := history;
      HoldsContents(form, Snapshot(), view);
      var seen := LoadToCollect(c);
      if form == Swap && seen == NULL {
        return [], at;
      }
      Interfere(c, env(0));
      if form == Swap {
        at := history;
        HoldsContents(form, Snapshot(), view);
      }
      Detach(c);
      out := WalkAll(c, env);
    }

    /** One round of the freeing loop. */
    method CollectNode(c: nat, env: nat -> seq<Move>, tick: nat)
      requires Valid() && c < |calls| && calls[c].Walk? && calls[c].cur != NULL
      modifies this
      ensures Valid() && |calls| == old(|calls|) && calls[c].Walk? && old(history) < history
      ensures Claim(c) == old(Claim(c)) && Measure(Snapshot()) < old(Measure(Snapshot()))
      ensures Quiet(env) ==> view.list == old(view).list && view.lost == old(view).lost
    {
      hide Inv, Measure, Run, ValidRun, Initial, BagSnapshot.Promised;
      ReadNode(c);
      Interfere(c, env(tick));
      FollowNode(c);
      Interfere(c, env(tick + 1));
      FreeNode(c);
    }

    /** The freeing loop, for a list that has been detached. */
    method WalkAll(c: nat, env: nat -> seq<Move>) returns (out: seq<Value>)
      requires Valid() && c < |calls| && calls[c].Walk?
      modifies this
      ensures Valid() && |calls| == old(|calls|) && calls[c] == Collected(out) && old(history) < history
      ensures out == old(Claim(c))
      ensures Quiet(env) ==> view.list == old(view).list && view.lost == old(view).lost
    {
      hide Inv, Measure, Initial, Run, ValidRun, BagSnapshot.Promised;
      Interfere(c, env(1));
      var tick := 2;
      while calls[c].cur != NULL
        invariant Valid() && |calls| == old(|calls|) && calls[c].Walk? && old(history) <= history
        invariant Claim(c) == old(Claim(c))
        invariant Quiet(env) ==> view.list == old(view).list && view.lost == old(view).lost
        decreases Measure(Snapshot())
      {
        CollectNode(c, env, tick);
        Interfere(c, env(tick + 2));
        tick := tick + 3;
      }
      out := FinishWalk(c);
    }

    /** `print_concbag`: walk the list from the head and print every value.  Nobody else runs. */
    method PrintBag() returns (out: seq<Value>)
      requires Valid()
      ensures out == Contents()
    {
      out := [];
      var node := head;
      ghost var rest := view.list;
      while node != NULL
        invariant Chain(heap, node, rest) && out + Values(heap, rest) == Contents()
        decreases rest
      {
        BagSafety.ChainTail(heap, node, rest);
        BagShipped.ChainEnd(heap, node, rest);
        out := out + [heap[node].data];
        node := heap[node].next;
        rest := rest[1..];
      }
      BagShipped.ChainEnd(heap, node, rest);
    }
  }

  /** What the call is going to print no longer depends on what the others do. */
  predicate Settled(form: Form, call: Call) {
    call.Walking() || (form == LoadThenStore && call.CollectDetach?)
  }

  /** From the head of t a list leads through nodes with exactly these values. */
  ghost predicate BagHolds(t: State, out: seq<Value>) {
    exists list :: Chain(t.heap, t.head, list) && out == Values(t.heap, list)
  }

  lemma HoldsContents(form: Form, s: State, v: View)
    requires Inv(form, s, v)
    ensures BagHolds(s, Values(s.heap, v.list))
  {
    assert Chain(s.heap, s.head, v.list);
  }

  /** No other call runs. */
  ghost predicate Quiet(env: nat -> seq<Move>) {
    forall tick :: env(tick) == []
  }

  lemma DetachClaims(form: Form, s: State, v: View, c: nat)
    requires Inv(form, s, v) && c < |s.calls| && s.calls[c].CollectDetach?
    ensures Enabled(s, Move(c, NULL))
    ensures var t, w := Next(form, s, Move(c, NULL)), NextView(form, s, v, Move(c, NULL));
            && |t.calls| == |s.calls| == |w.held| && w.list == []
            && (form == Swap || s.calls[c].seen == s.head ==>
                  Claimed(t, w, c) == Values(s.heap, v.list) && w.lost == v.lost)
  {
    var t := Next(form, s, Move(c, NULL));
    BagSafety.DetachShape(form, s, v, Move(c, NULL));
    if form == Swap || s.calls[c].seen == s.head {
      DetachTakesAll(form, s, v, c);
      HandOverAll(v, Taker(form, s, v, c), t, c);
    }
  }

  lemma HandOverAll(v: View, d: nat, t: State, c: nat)
    requires c < |t.calls| == |v.held| && t.calls[c].Walk? && t.calls[c].out == []
    requires v.list != [] ==> d == c
    requires v.list == [] ==> v.held[c] == []
    ensures var w := HandOver(v, d, [], v.list);
            w.lost == v.lost && |w.held| == |v.held| && Claimed(t, w, c) == Values(t.heap, v.list)
  {
    var w := HandOver(v, d, [], v.list);
    assert w.held[c] == v.list;
  }

  lemma DetachTakesAll(form: Form, s: State, v: View, c: nat)
    requires Inv(form, s, v) && c < |s.calls| && s.calls[c].CollectDetach?
    requires form == Swap || s.calls[c].seen == s.head
    ensures Taken(form, s, v) == v.list && Missed(form, s, v) == []
    ensures v.list != [] ==> Taker(form, s, v, c) == c
    ensures v.list == [] ==> v.held[c] == []
  {
    assert CallOk(form, s, v, c);
    BagShipped.ChainEnd(s.heap, s.head, v.list);
    if form == LoadThenStore {
      if v.list != [] {
        assert Shares(s, v.list, c);
        BagShipped.SuffixAt(v.list, 0);
      } else {
        BagShipped.ChainEnd(s.heap, NULL, v.held[c]);
      }
    }
  }

  /** What another call's step leaves alone. */
  lemma OtherStepFacts(form: Form, s: State, v: View, m: Move, c: nat)
    requires Inv(form, s, v) && Enabled(s, m) && c < |s.calls| && c != m.call && Disciplined(form, s, v.list, m)
    ensures |v.held| == |s.calls|
    ensures var t, w := Next(form, s, m), NextView(form, s, v, m);
            && |t.calls| == |s.calls| == |w.held| && t.calls[c] == s.calls[c]
            && (Settled(form, s.calls[c]) ==> BagSnapshot.Promised(t, w, c) == BagSnapshot.Promised(s, v, c))
  {
    StepWriters(form, s, m);
    assert |v.held| == |s.calls|;
    HeldLength(form, s, v, m);
    hide Inv, Next, NextView, Claimed, Disciplined;
    if Settled(form, s.calls[c]) {
      if form == Swap {
        OthersKeepClaims(form, s, v, m, c);
      } else {
        BagShipped.PoliteIsDisciplined(s, v, m);
        BagSnapshot.StepKeepsPromise(s, v, m, c);
      }
    }
  }

  /** A step of a walk along a chain. */
  lemma NextNode(heap: map<Addr, Node>, node: Addr, list: seq<Addr>, k: nat)
    requires k <= |list| && Chain(heap, node, list[k..]) && node != NULL
    ensures k < |list| && node in heap && list[..k] + [node] == list[..k + 1]
    ensures Chain(heap, heap[node].next, list[k + 1..])
  {
    var rest := list[k..];
    BagShipped.ChainEnd(heap, node, rest);
    BagSafety.ChainTail(heap, node, rest);
    assert rest[0] == node && rest[1..] == list[k + 1..];
  }

  lemma HeldLength(form: Form, s: State, v: View, m: Move)
    requires Enabled(s, m) && |v.held| == |s.calls|
    ensures |NextView(form, s, v, m).held| == |v.held|
  {
  }

  /** A walking collector's current node is live. */
  lemma HeadOfWalk(form: Form, s: State, v: View, c: nat)
    requires Inv(form, s, v) && c < |s.calls| && s.calls[c].Walking()
    requires s.calls[c].Walk? ==> s.calls[c].cur != NULL
    ensures s.calls[c].cur in s.heap && s.calls[c].cur != NULL
  {
    assert CallOk(form, s, v, c);
    assert v.held[c] != [] && v.held[c][0] in s.heap;
  }

  /** The next step of a walk that is not at its end. */
  lemma WalkMoves(form: Form, s: State, v: View, c: nat)
    requires Inv(form, s, v) && c < |s.calls| && s.calls[c].Walking()
    requires s.calls[c].Walk? ==> s.calls[c].cur != NULL
    ensures var m := Move(c, NULL);
            && Enabled(s, m) && Disciplined(form, s, v.list, m) && s.calls[c].cur in s.heap
            && Next(form, s, m) ==
               (match s.calls[c]
                case Walk(cur, out) => s.(calls := s.calls[c := WalkNext(cur, out + [s.heap[cur].data])])
                case WalkNext(cur, out) => s.(calls := s.calls[c := WalkFree(cur, s.heap[cur].next, out)])
                case WalkFree(cur, next, out) =>
                  s.(heap := s.heap - {cur}, calls := s.calls[c := Walk(next, out)]))
            && var w := NextView(form, s, v, m);
               w.list == v.list && w.lost == v.lost && (!s.calls[c].WalkFree? ==> w == v)
  {
    HeadOfWalk(form, s, v, c);
  }

  lemma FreshAddressExists(heap: map<Addr, Node>)
    ensures exists a: Addr :: a != NULL && a !in heap
  {
    var a: Addr := 1 + Largest(heap.Keys);
    assert a !in heap.Keys;
    assert a != NULL && a !in heap;
  }

  ghost function Largest(used: set<Addr>): (r: nat)
    ensures forall a :: a in used ==> a <= r
  {
    if used == {} then 0
    else
      var a :| a in used;
      var r := Largest(used - {a});
      assert used == (used - {a}) + {a};
      if a > r then a else r
  }
}
