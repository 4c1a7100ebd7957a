/** The invariant holds in every reachable state. */
module BagSafety {
  import opened BagMachine
  import opened BagInvariant

  /** A chain survives any change of the heap that leaves its nodes' links alone. */
  lemma ChainFrame(heap: map<Addr, Node>, heap': map<Addr, Node>, p: Addr, xs: seq<Addr>)
    requires Chain(heap, p, xs)
    requires forall a :: a in xs ==> a in heap' && a in heap && heap'[a].next == heap[a].next
    ensures Chain(heap', p, xs)
  {
    forall i | 0 <= i < |xs|
      ensures xs[i] != NULL && xs[i] in heap' && heap'[xs[i]].next == Succ(xs, i)
    {
      assert xs[i] in xs;
      assert heap[xs[i]].next == Succ(xs, i);
    }
  }

  /** Dropping the first node of a chain leaves a chain. */
  lemma ChainTail(heap: map<Addr, Node>, p: Addr, xs: seq<Addr>)
    requires Chain(heap, p, xs) && xs != []
    ensures p in heap && heap[p].next == Succ(xs, 0) && Chain(heap, heap[p].next, xs[1..])
  {
    assert xs[0] in heap;
    forall i | 0 <= i < |xs[1..]|
      ensures xs[1..][i] != NULL && xs[1..][i] in heap && heap[xs[1..][i]].next == Succ(xs[1..], i)
    {
      assert xs[i + 1] in heap;
    }
  }

  lemma ChainDrop(heap: map<Addr, Node>, p: Addr, xs: seq<Addr>, k: nat)
    requires Chain(heap, p, xs) && k <= |xs|
    ensures Chain(heap, First(xs[k..]), xs[k..])
  {
    forall i | 0 <= i < |xs[k..]|
      ensures xs[k..][i] != NULL && xs[k..][i] in heap && heap[xs[k..][i]].next == Succ(xs[k..], i)
    {
      assert xs[i + k] in heap;
    }
  }

  lemma ChainCons(heap: map<Addr, Node>, n: Addr, xs: seq<Addr>)
    requires n != NULL && n in heap && Chain(heap, heap[n].next, xs)
    ensures Chain(heap, n, [n] + xs)
  {
    var ys := [n] + xs;
    forall i | 0 <= i < |ys|
      ensures ys[i] != NULL && ys[i] in heap && heap[ys[i]].next == Succ(ys, i)
    {
      if i > 0 {
        assert xs[i - 1] in heap;
      }
    }
  }

  /** A call that does not step keeps what it relies on, if its own nodes are left alone. */
  lemma KeepCall(form: Form, s: State, v: View, t: State, w: View, d: nat)
    requires d < |s.calls| == |v.held| == |t.calls| == |w.held|
    requires CallOk(form, s, v, d) && t.calls[d] == s.calls[d] && w.held[d] == v.held[d]
    requires forall a :: a in v.held[d] ==> a in t.heap && a in s.heap && t.heap[a] == s.heap[a]
    requires s.calls[d].CollectDetach? && form == LoadThenStore
             ==> (s.calls[d].seen in w.list <==> s.calls[d].seen in v.list)
    ensures CallOk(form, t, w, d)
  {
    var held := v.held[d];
    match s.calls[d] {
      case Walk(cur, _) => ChainFrame(s.heap, t.heap, cur, held);
      case WalkNext(cur, _) => ChainFrame(s.heap, t.heap, cur, held);
      case WalkFree(cur, _, _) => ChainFrame(s.heap, t.heap, cur, held);
      case CollectDetach(seen) =>
        if form == LoadThenStore && seen !in v.list {
          ChainFrame(s.heap, t.heap, seen, held);
        }
      case InsertLoad(_, n) => assert n in held;
      case InsertLink(_, n, _) => assert n in held;
      case InsertCas(_, n, _) => assert n in held;
      case _ =>
    }
  }

  /** Nodes held by one call are live and held by no other. */
  lemma HeldApart(form: Form, s: State, v: View, c: nat, a: Addr)
    requires Inv(form, s, v) && c < |s.calls| && a in v.held[c]
    ensures a in s.heap && a !in v.list && a !in v.lost
    ensures forall d :: 0 <= d < |s.calls| && d != c ==> a !in v.held[d]
  {
  }

  /** Nodes held by a call are live. */
  lemma HeldIsLive(form: Form, s: State, v: View, d: nat)
    requires Inv(form, s, v) && d < |s.calls|
    ensures forall a :: a in v.held[d] ==> a in s.heap
  {
  }

  /** A collector of the shipped form never has its eye on another call's node. */
  lemma SeenNotHeld(form: Form, s: State, v: View, c: nat, a: Addr, d: nat)
    requires Inv(form, s, v) && c < |s.calls| && a in v.held[c] && d < |s.calls| && d != c
    ensures form == LoadThenStore && s.calls[d].CollectDetach? ==> s.calls[d].seen != a
  {
    HeldApart(form, s, v, c, a);
    assert CallOk(form, s, v, d);
    assert v.held[d] == [] || v.held[d][0] in v.held[d];
  }

  /** The calls that do not step keep what they rely on, if their nodes are left alone. */
  lemma OthersOk(form: Form, s: State, v: View, t: State, w: View, c: nat)
    requires Inv(form, s, v) && c < |s.calls| == |v.held| == |t.calls| == |w.held|
    requires forall d :: 0 <= d < |s.calls| && d != c ==> t.calls[d] == s.calls[d] && w.held[d] == v.held[d]
    requires forall a :: a in s.heap && a !in v.held[c] ==> a in t.heap && t.heap[a] == s.heap[a]
    requires forall d :: 0 <= d < |s.calls| && d != c && s.calls[d].CollectDetach? && form == LoadThenStore
               ==> (s.calls[d].seen in w.list <==> s.calls[d].seen in v.list)
    ensures forall d :: 0 <= d < |s.calls| && d != c ==> CallOk(form, t, w, d)
  {
    hide CallOk, Owned, Chain, NoRepeats, Sharing;
    forall d | 0 <= d < |s.calls| && d != c ensures CallOk(form, t, w, d) {
      forall a | a in v.held[d] ensures a in s.heap && a !in v.held[c] {
        HeldApart(form, s, v, d, a);
      }
      KeepCall(form, s, v, t, w, d);
    }
  }

  lemma StepAlloc(form: Form, s: State, v: View, m: Move)
    requires Inv(form, s, v) && Enabled(s, m) && s.calls[m.call].InsertAlloc?
    ensures Inv(form, Next(form, s, m), NextView(form, s, v, m))
  {
    assert |v.held| == |s.calls| && CallOk(form, s, v, m.call);
    assert v.held[m.call] == [];
    hide Inv, CallOk;
    Allocate(form, s, v, m.call, m.addr, Next(form, s, m), NextView(form, s, v, m));
  }

  lemma Allocate(form: Form, s: State, v: View, c: nat, n: Addr, t: State, w: View)
    requires Inv(form, s, v) && c < |s.calls| == |v.held| && s.calls[c].InsertAlloc? && v.held[c] == []
    requires n != NULL && n !in s.heap
    requires t == s.(heap := s.heap[n := Node(s.calls[c].value, NULL)],
             calls := s.calls[c := InsertLoad(s.calls[c].value, n)])
    requires w == v.(held := v.held[c := [n]], owner := v.owner[n := Private(c)])
    ensures Inv(form, t, w)
  {
    AllocateFacts(form, s, v, c, n, t, w);
    hide Owned, NoRepeats, CallOk, Chain;
    OthersOk(form, s, v, t, w, c);
    forall d | Shares(t, w.list, d) ensures Shares(s, v.list, d) {}
  }

  lemma AllocateFacts(form: Form, s: State, v: View, c: nat, n: Addr, t: State, w: View)
    requires Inv(form, s, v) && c < |s.calls| == |v.held| && s.calls[c].InsertAlloc? && v.held[c] == []
    requires n != NULL && n !in s.heap
    requires t == s.(heap := s.heap[n := Node(s.calls[c].value, NULL)],
             calls := s.calls[c := InsertLoad(s.calls[c].value, n)])
    requires w == v.(held := v.held[c := [n]], owner := v.owner[n := Private(c)])
    ensures Owned(t, w) && Chain(t.heap, t.head, w.list) && CallOk(form, t, w, c)
    ensures forall i :: 0 <= i < |w.held| ==> NoRepeats(w.held[i])
  {
    AllocateOwnership(v, c, n);
    assert forall a :: a in v.list ==> a in s.heap;
    ChainFrame(s.heap, t.heap, s.head, v.list);
  }

  /** Call c comes to hold a new node. */
  lemma AllocateOwnership(v: View, c: nat, n: Addr)
    requires Ownership(v) && c < |v.held| && v.held[c] == [] && n !in v.owner
    requires forall i :: 0 <= i < |v.held| ==> NoRepeats(v.held[i])
    ensures var w := v.(held := v.held[c := [n]], owner := v.owner[n := Private(c)]);
            && Ownership(w) && (forall i :: 0 <= i < |w.held| ==> NoRepeats(w.held[i]))
            && w.owner.Keys == v.owner.Keys + {n}
  {
    var w := v.(held := v.held[c := [n]], owner := v.owner[n := Private(c)]);
    hide NoRepeats;
    assert NoRepeats([n]) by {
      NoRepeatsOne(n);
    }
    forall e, a | 0 <= e < |w.held| ensures a in w.held[e] <==> a in w.owner && w.owner[a] == Private(e) {
      assert a in v.held[e] <==> a in v.owner && v.owner[a] == Private(e);
    }
  }

  lemma NoRepeatsOne(n: Addr)
    ensures NoRepeats([n])
  {
  }

  /** The steps that change neither the heap nor the view. */
  lemma StepLocal(form: Form, s: State, v: View, m: Move)
    requires Inv(form, s, v) && Enabled(s, m) && Disciplined(form, s, v.list, m)
    requires NextView(form, s, v, m) == v && Next(form, s, m).heap == s.heap && Next(form, s, m).head == s.head
    requires !Next(form, s, m).fault && CallOk(form, Next(form, s, m), v, m.call)
    ensures Inv(form, Next(form, s, m), NextView(form, s, v, m))
  {
    var t, c := Next(form, s, m), m.call;
    assert |t.calls| == |s.calls| && forall d :: 0 <= d < |s.calls| && d != c ==> t.calls[d] == s.calls[d];
    assert s.calls[c].CollectLoad? ==> s.head != NULL || !t.calls[c].CollectDetach? || NULL !in v.list;
    assert t.calls[c].CollectDetach? ==> s.calls[c].CollectLoad?;
    hide Ownership, NoRepeats, CallOk, Chain, Next, NextView;
    forall d | 0 <= d < |t.calls| ensures CallOk(form, t, v, d) {
      if d != c {
        HeldIsLive(form, s, v, d);
        KeepCall(form, s, v, t, v, d);
      }
    }
    forall d | Shares(t, v.list, d) && d != c ensures Shares(s, v.list, d) {}
  }

  lemma StepLink(form: Form, s: State, v: View, m: Move)
    requires Inv(form, s, v) && Enabled(s, m) && s.calls[m.call].InsertLink?
    ensures Inv(form, Next(form, s, m), NextView(form, s, v, m))
  {
    var t, w, c := Next(form, s, m), NextView(form, s, v, m), m.call;
    assert CallOk(form, s, v, c);
    var n := s.calls[c].node;
    assert n in v.held[c];
    HeldApart(form, s, v, c, n);
    assert Owned(t, w);
    ChainFrame(s.heap, t.heap, s.head, v.list);
    forall d | 0 <= d < |t.calls| ensures CallOk(form, t, w, d) {
      if d != c {
        KeepCall(form, s, v, t, w, d);
      }
    }
    forall d | Shares(t, w.list, d) ensures Shares(s, v.list, d) {}
  }

  lemma StepCasWins(form: Form, s: State, v: View, m: Move)
    requires Inv(form, s, v) && Enabled(s, m) && CasWins(s, m)
    ensures Inv(form, Next(form, s, m), NextView(form, s, v, m))
  {
    assert |v.held| == |s.calls|;
    hide Inv;
    Publish(form, s, v, m.call, Next(form, s, m), NextView(form, s, v, m));
  }

  lemma Publish(form: Form, s: State, v: View, c: nat, t: State, w: View)
    requires Inv(form, s, v) && c < |s.calls| == |v.held| && s.calls[c].InsertCas? && s.head == s.calls[c].seen
    requires t == s.(head := s.calls[c].node, calls := s.calls[c := Inserted(s.calls[c].value)])
    requires w == v.(list := [s.calls[c].node] + v.list, held := v.held[c := []],
             owner := v.owner[s.calls[c].node := Listed])
    ensures Inv(form, t, w)
  {
    var n := s.calls[c].node;
    PublishFacts(form, s, v, c, t, w);
    hide Owned, NoRepeats, CallOk, Chain;
    forall d | 0 <= d < |s.calls| && d != c && s.calls[d].CollectDetach? && form == LoadThenStore
      ensures s.calls[d].seen in w.list <==> s.calls[d].seen in v.list
    {
      SeenNotHeld(form, s, v, c, n, d);
    }
    OthersOk(form, s, v, t, w, c);
    forall d: nat | Shares(t, w.list, d) && form == LoadThenStore ensures Shares(s, v.list, d) {
      SeenNotHeld(form, s, v, c, n, d);
    }
  }

  lemma PublishFacts(form: Form, s: State, v: View, c: nat, t: State, w: View)
    requires Inv(form, s, v) && c < |s.calls| == |v.held| && s.calls[c].InsertCas? && s.head == s.calls[c].seen
    requires t == s.(head := s.calls[c].node, calls := s.calls[c := Inserted(s.calls[c].value)])
    requires w == v.(list := [s.calls[c].node] + v.list, held := v.held[c := []],
             owner := v.owner[s.calls[c].node := Listed])
    ensures Owned(t, w) && Chain(t.heap, t.head, w.list) && CallOk(form, t, w, c)
    ensures NoRepeats(w.list) && forall i :: 0 <= i < |w.held| ==> NoRepeats(w.held[i])
    ensures s.calls[c].node in v.held[c]
  {
    assert CallOk(form, s, v, c);
    var n := s.calls[c].node;
    assert n in v.held[c];
    HeldApart(form, s, v, c, n);
    PublishOwnership(v, c, n);
    ChainCons(t.heap, n, v.list);
  }

  /** The node that call c holds becomes the first of the list. */
  lemma PublishOwnership(v: View, c: nat, n: Addr)
    requires Ownership(v) && c < |v.held| && v.held[c] == [n]
    requires NoRepeats(v.list) && forall i :: 0 <= i < |v.held| ==> NoRepeats(v.held[i])
    ensures var w := v.(list := [n] + v.list, held := v.held[c := []], owner := v.owner[n := Listed]);
            && Ownership(w) && NoRepeats(w.list) && (forall i :: 0 <= i < |w.held| ==> NoRepeats(w.held[i]))
            && w.owner.Keys == v.owner.Keys
  {
    assert n in v.held[c];
    assert n in v.owner && v.owner[n] == Private(c);
    assert n !in v.list;
    var w := v.(list := [n] + v.list, held := v.held[c := []], owner := v.owner[n := Listed]);
    NoRepeatsCons(n, v.list);
    hide NoRepeats;
    forall a ensures a in w.list <==> a == n || a in v.list {}
    forall e, a | 0 <= e < |w.held| ensures a in w.held[e] <==> a in w.owner && w.owner[a] == Private(e) {
      assert a in v.held[e] <==> a in v.owner && v.owner[a] == Private(e);
    }
  }

  lemma NoRepeatsCons(n: Addr, xs: seq<Addr>)
    requires NoRepeats(xs) && n !in xs
    ensures NoRepeats([n] + xs) && NoRepeats([])
  {
  }

  lemma StepFree(form: Form, s: State, v: View, m: Move)
    requires Inv(form, s, v) && Enabled(s, m) && s.calls[m.call].WalkFree?
    ensures Inv(form, Next(form, s, m), NextView(form, s, v, m))
  {
    assert |v.held| == |s.calls| && CallOk(form, s, v, m.call);
    assert v.held[m.call] != [] && s.calls[m.call].cur in s.heap;
    hide Inv, CallOk;
    Free(form, s, v, m.call, Next(form, s, m), NextView(form, s, v, m));
  }

  lemma Free(form: Form, s: State, v: View, c: nat, t: State, w: View)
    requires Inv(form, s, v) && c < |s.calls| == |v.held| && s.calls[c].WalkFree? && v.held[c] != []
    requires t == s.(heap := s.heap - {s.calls[c].cur}, calls := s.calls[c := Walk(s.calls[c].next, s.calls[c].out)])
    requires w == v.(held := v.held[c := v.held[c][1..]], owner := v.owner - {s.calls[c].cur})
    ensures Inv(form, t, w)
  {
    assert CallOk(form, s, v, c);
    var n := s.calls[c].cur;
    assert n in v.held[c];
    HeldApart(form, s, v, c, n);
    FreeOwnership(v, c, n);
    ChainFrame(s.heap, t.heap, s.head, v.list);
    ChainTail(s.heap, n, v.held[c]);
    ChainFrame(s.heap, t.heap, s.heap[n].next, v.held[c][1..]);
    assert CallOk(form, t, w, c);
    hide Ownership, NoRepeats, CallOk, Chain;
    OthersOk(form, s, v, t, w, c);
    forall d | Shares(t, w.list, d) ensures Shares(s, v.list, d) {}
  }

  /** The first node that call c holds leaves the heap. */
  lemma FreeOwnership(v: View, c: nat, n: Addr)
    requires Ownership(v) && c < |v.held| && v.held[c] != [] && v.held[c][0] == n
    requires forall i :: 0 <= i < |v.held| ==> NoRepeats(v.held[i])
    ensures var w := v.(held := v.held[c := v.held[c][1..]], owner := v.owner - {n});
            && Ownership(w) && (forall i :: 0 <= i < |w.held| ==> NoRepeats(w.held[i]))
            && w.owner.Keys == v.owner.Keys - {n}
            && n !in v.held[c][1..]
  {
    var rest := v.held[c][1..];
    var w := v.(held := v.held[c := rest], owner := v.owner - {n});
    TailMembers(v.held[c]);
    assert n in v.held[c];
    hide NoRepeats;
    forall e, a | 0 <= e < |w.held| ensures a in w.held[e] <==> a in w.owner && w.owner[a] == Private(e) {
      assert a in v.held[e] <==> a in v.owner && v.owner[a] == Private(e);
    }
  }

  lemma TailMembers(xs: seq<Addr>)
    requires NoRepeats(xs) && xs != []
    ensures NoRepeats(xs[1..])
    ensures forall a :: a in xs[1..] <==> a in xs && a != xs[0]
  {
    var rest := xs[1..];
    assert xs == [xs[0]] + rest;
    assert forall i :: 0 <= i < |rest| ==> rest[i] == xs[i + 1];
  }

  /** How the list splits when call c clears the head: the end `taken` goes to call d. */
  ghost predicate Splits(form: Form, s: State, v: View, c: nat, d: nat, missed: seq<Addr>, taken: seq<Addr>) {
    && c < |s.calls| && s.calls[c].CollectDetach?
    && v.list == missed + taken
    && (taken != [] ==> d < |s.calls| == |v.held| && v.held[d] == [])
    && (form == Swap ==> d == c && missed == [])
    && (form == LoadThenStore && taken != [] ==> Shares(s, v.list, d) && s.calls[d].seen == taken[0])
    && (form == LoadThenStore ==>
          forall e {:trigger Shares(s, v.list, e)} :: Shares(s, v.list, e) ==> e == d && taken != [])
  }

  lemma DetachShape(form: Form, s: State, v: View, m: Move)
    requires Enabled(s, m) && s.calls[m.call].CollectDetach? && |v.held| == |s.calls|
    ensures var t, c := Next(form, s, m), m.call;
            && t == State(NULL, s.heap, s.calls[c := Walk(if form == Swap then s.head else s.calls[c].seen, [])],
                s.fault)
            && NextView(form, s, v, m) == HandOver(v, Taker(form, s, v, c), Missed(form, s, v), Taken(form, s, v))
  {
  }

  lemma DetachSplits(form: Form, s: State, v: View, c: nat)
    requires Inv(form, s, v) && c < |s.calls| && s.calls[c].CollectDetach?
    ensures Splits(form, s, v, c, Taker(form, s, v, c), Missed(form, s, v), Taken(form, s, v))
  {
    assert |v.held| == |s.calls| && CallOk(form, s, v, c);
    if form == Swap {
      assert v.held[c] == [];
      hide Inv, CallOk;
      assert Missed(form, s, v) == [];
    } else {
      var d := Sharer(s, v.list);
      if d < |s.calls| {
        SharerSplits(s, v, d);
      }
      hide Inv, CallOk, Sharer, Suffix, Shares;
      TakenIsEnd(s, v);
    }
  }

  lemma TakenIsEnd(s: State, v: View)
    ensures Missed(LoadThenStore, s, v) + Taken(LoadThenStore, s, v) == v.list
  {
    var n := |v.list| - |Taken(LoadThenStore, s, v)|;
    assert Taken(LoadThenStore, s, v) == v.list[n..];
    hide Taken, Sharer, Suffix;
    assert v.list[..n] + v.list[n..] == v.list;
  }

  lemma SharerSplits(s: State, v: View, d: nat)
    requires Inv(LoadThenStore, s, v) && Shares(s, v.list, d)
    ensures v.held[d] == []
    ensures var taken := Suffix(v.list, s.calls[d].seen); taken != [] && s.calls[d].seen == taken[0]
    ensures forall e {:trigger Shares(s, v.list, e)} :: Shares(s, v.list, e) ==> e == d
  {
    assert CallOk(LoadThenStore, s, v, d);
  }

  lemma HandOverRepeats(v: View, d: nat, missed: seq<Addr>, taken: seq<Addr>)
    requires Ownership(v) && v.list == missed + taken
    requires NoRepeats(v.list) && NoRepeats(v.lost)
    requires forall c :: 0 <= c < |v.held| ==> NoRepeats(v.held[c])
    ensures var w := HandOver(v, d, missed, taken);
            NoRepeats(w.lost) && forall c :: 0 <= c < |w.held| ==> NoRepeats(w.held[c])
  {
    forall i, j | 0 <= i < |v.lost| && 0 <= j < |missed| ensures v.lost[i] != missed[j] {
      assert v.lost[i] in v.lost && missed[j] == v.list[j];
    }
    assert forall i :: 0 <= i < |missed| ==> missed[i] == v.list[i];
    assert forall i :: 0 <= i < |taken| ==> taken[i] == v.list[|missed| + i];
  }

  lemma HandOverOwnership(v: View, d: nat, missed: seq<Addr>, taken: seq<Addr>)
    requires Ownership(v) && NoRepeats(v.list) && v.list == missed + taken
    requires taken != [] ==> d < |v.held| && v.held[d] == []
    ensures Ownership(HandOver(v, d, missed, taken))
  {
    var w := HandOver(v, d, missed, taken);
    assert forall a :: a in v.list <==> a in missed || a in taken;
    forall i, j | 0 <= i < |missed| && 0 <= j < |taken| ensures missed[i] != taken[j] {
      assert v.list[i] == missed[i] && v.list[|missed| + j] == taken[j];
    }
    forall a ensures a in w.lost <==> a in w.owner && w.owner[a] == Lost {}
    forall e, a | 0 <= e < |w.held| ensures a in w.held[e] <==> a in w.owner && w.owner[a] == Private(e) {}
  }

  lemma DetachCall(form: Form, s: State, v: View, t: State, c: nat, d: nat, missed: seq<Addr>, taken: seq<Addr>, e: nat)
    requires Inv(form, s, v) && e < |s.calls| && Splits(form, s, v, c, d, missed, taken)
    requires t.heap == s.heap
    requires t.calls == s.calls[c := Walk(if form == Swap then s.head else s.calls[c].seen, [])]
    ensures CallOk(form, t, HandOver(v, d, missed, taken), e)
  {
    assert CallOk(form, s, v, e);
    assert taken == v.list[|missed|..];
    ChainDrop(s.heap, s.head, v.list, |missed|);
    if form == LoadThenStore && s.calls[e].CollectDetach? && s.calls[e].seen in v.list {
      assert Shares(s, v.list, e);
    }
  }

  /** Clearing the head hands the shared snapshot, or the whole list, to its collector. */
  lemma StepDetach(form: Form, s: State, v: View, m: Move)
    requires Inv(form, s, v) && Enabled(s, m) && s.calls[m.call].CollectDetach?
    ensures Inv(form, Next(form, s, m), NextView(form, s, v, m))
  {
    assert |v.held| == |s.calls|;
    hide Inv, Splits, Taker, Missed, Taken, HandOver, Next, NextView;
    var t, c := Next(form, s, m), m.call;
    var d, missed, taken := Taker(form, s, v, c), Missed(form, s, v), Taken(form, s, v);
    DetachSplits(form, s, v, c);
    DetachShape(form, s, v, m);
    DetachInv(form, s, v, t, c, d, missed, taken);
  }

  lemma DetachInv(form: Form, s: State, v: View, t: State, c: nat, d: nat, missed: seq<Addr>, taken: seq<Addr>)
    requires Inv(form, s, v) && Splits(form, s, v, c, d, missed, taken)
    requires t.heap == s.heap && t.head == NULL && t.fault == s.fault
    requires t.calls == s.calls[c := Walk(if form == Swap then s.head else s.calls[c].seen, [])]
    ensures Inv(form, t, HandOver(v, d, missed, taken))
  {
    var w := HandOver(v, d, missed, taken);
    HandOverOwnership(v, d, missed, taken);
    HandOverRepeats(v, d, missed, taken);
    assert w.owner.Keys == v.owner.Keys;
    forall e: nat | e < |t.calls| ensures CallOk(form, t, w, e) {
      DetachCall(form, s, v, t, c, d, missed, taken, e);
    }
  }

  /** No step breaks the invariant: for the swapping collector unconditionally, for the shipped one
      as long as the discipline is kept. */
  lemma StepSafe(form: Form, s: State, v: View, m: Move)
    requires Inv(form, s, v) && Enabled(s, m) && Disciplined(form, s, v.list, m)
    ensures Inv(form, Next(form, s, m), NextView(form, s, v, m))
  {
    hide Inv, Disciplined, CallOk, Next, NextView;
    var call := s.calls[m.call];
    match call {
      case InsertAlloc(_) => StepAlloc(form, s, v, m);
      case InsertLink(_, _, _) => StepLink(form, s, v, m);
      case CollectDetach(_) => StepDetach(form, s, v, m);
      case WalkFree(_, _, _) => StepFree(form, s, v, m);
      case _ =>
        if CasWins(s, m) {
          StepCasWins(form, s, v, m);
        } else {
          LocalShape(form, s, v, m);
          StepLocal(form, s, v, m);
        }
    }
  }

  lemma LocalShape(form: Form, s: State, v: View, m: Move)
    requires Inv(form, s, v) && Enabled(s, m) && !CasWins(s, m)
    requires var call := s.calls[m.call];
             !call.InsertAlloc? && !call.InsertLink? && !call.CollectDetach? && !call.WalkFree?
    ensures |v.held| == |s.calls|
    ensures NextView(form, s, v, m) == v && Next(form, s, m).heap == s.heap && Next(form, s, m).head == s.head
    ensures |Next(form, s, m).calls| == |s.calls|
    ensures !Next(form, s, m).fault && CallOk(form, Next(form, s, m), v, m.call)
  {
    assert CallOk(form, s, v, m.call);
  }
}
