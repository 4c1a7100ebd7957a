/** What the heap of the bag looks like in every reachable state, for both collectors.

    A View lists the nodes reachable from the head, the nodes each call holds privately and the
    nodes that were lost, and says for every live address which of these owns it. */
module BagInvariant {
  import opened BagMachine

  datatype Owner = Listed | Private(call: nat) | Lost

  datatype View = View(
    list: seq<Addr>,
    held: seq<seq<Addr>>,
    lost: seq<Addr>,
    owner: map<Addr, Owner>)

  function Succ(xs: seq<Addr>, i: nat): Addr {
    if i + 1 < |xs| then xs[i + 1] else NULL
  }

  function First(xs: seq<Addr>): Addr {
    if xs == [] then NULL else xs[0]
  }

  /** From p the next pointers lead through exactly the live nodes xs and then to null. */
  ghost predicate Chain(heap: map<Addr, Node>, p: Addr, xs: seq<Addr>) {
    && p == First(xs)
    && forall i {:trigger heap[xs[i]]} {:trigger xs[i] in heap} ::
         0 <= i < |xs| ==> xs[i] != NULL && xs[i] in heap && heap[xs[i]].next == Succ(xs, i)
  }

  ghost predicate NoRepeats(xs: seq<Addr>) {
    forall i, j :: 0 <= i < j < |xs| ==> xs[i] != xs[j]
  }

  /** The part of xs that starts at a; empty if a is not in xs. */
  function Suffix(xs: seq<Addr>, a: Addr): (r: seq<Addr>)
    ensures |r| <= |xs| && r == xs[|xs| - |r|..]
    ensures a in xs <==> r != []
    ensures r != [] ==> r[0] == a
  {
    if xs == [] then [] else if xs[0] == a then xs else Suffix(xs[1..], a)
  }

  /** Call d has loaded a head it will detach, and that node is still reachable from the head. */
  predicate Shares(s: State, list: seq<Addr>, d: nat) {
    d < |s.calls| && s.calls[d].CollectDetach? && s.calls[d].seen in list
  }

  /** What call c may assume about the nodes it holds. */
  ghost predicate CallOk(form: Form, s: State, v: View, c: nat)
    requires c < |s.calls| == |v.held|
  {
    var held := v.held[c];
    match s.calls[c]
    case InsertLoad(val, n) => held == [n] && n in s.heap && s.heap[n].data == val
    case InsertLink(val, n, seen) => held == [n] && n in s.heap && s.heap[n].data == val
    case InsertCas(val, n, seen) => held == [n] && n in s.heap && s.heap[n] == Node(val, seen)
    case Walk(cur, _) => Chain(s.heap, cur, held)
    case WalkNext(cur, _) => Chain(s.heap, cur, held) && cur != NULL
    case WalkFree(cur, next, _) => Chain(s.heap, cur, held) && cur != NULL && next == Succ(held, 0)
    case CollectDetach(seen) =>
      if form == Swap then held == []
      else if seen in v.list then held == []
      else Chain(s.heap, seen, held)
    case _ => held == []
  }

  ghost predicate Inv(form: Form, s: State, v: View) {
    && !s.fault
    && NULL !in s.heap
    && Owned(s, v)
    && Chain(s.heap, s.head, v.list)
    && NoRepeats(v.list) && NoRepeats(v.lost) && (forall c :: 0 <= c < |v.held| ==> NoRepeats(v.held[c]))
    && CallsOk(form, s, v)
    && Sharing(form, s, v)
  }

  ghost predicate CallsOk(form: Form, s: State, v: View)
    requires |v.held| == |s.calls|
  {
    forall c :: 0 <= c < |s.calls| ==> CallOk(form, s, v, c)
  }

  /** Only the shipped form loses nodes, and there at most one snapshot is still shared. */
  ghost predicate Sharing(form: Form, s: State, v: View) {
    && (form == Swap ==> v.lost == [])
    && (form == LoadThenStore ==> forall d, e :: Shares(s, v.list, d) && Shares(s, v.list, e) ==> d == e)
  }

  /** Every live address has exactly one owner: the list, one call, or nobody any more. */
  ghost predicate Owned(s: State, v: View) {
    |v.held| == |s.calls| && v.owner.Keys == s.heap.Keys && Ownership(v)
  }

  ghost predicate Ownership(v: View) {
    && (forall a :: a in v.list <==> a in v.owner && v.owner[a] == Listed)
    && (forall a :: a in v.lost <==> a in v.owner && v.owner[a] == Lost)
    && (forall c, a :: 0 <= c < |v.held| ==> (a in v.held[c] <==> a in v.owner && v.owner[a] == Private(c)))
    && (forall a :: a in v.owner && v.owner[a].Private? ==> v.owner[a].call < |v.held|)
  }

  /** A collector of the shipped form may only load the head while no other collector's snapshot is
      still reachable from it.  This is the guard under which the shipped form is memory safe. */
  predicate Disciplined(form: Form, s: State, list: seq<Addr>, m: Move) {
    form == LoadThenStore && m.call < |s.calls| && s.calls[m.call].CollectLoad? && s.head != NULL
    ==> forall d :: 0 <= d < |s.calls| ==> !Shares(s, list, d)
  }

  /** The call whose snapshot the list still shares, or |s.calls| if there is none. */
  function Sharer(s: State, list: seq<Addr>, from: nat := 0): (d: nat)
    requires from <= |s.calls|
    ensures from <= d <= |s.calls|
    ensures d < |s.calls| ==> Shares(s, list, d)
    ensures forall e :: from <= e < d ==> !Shares(s, list, e)
    decreases |s.calls| - from
  {
    if from == |s.calls| || Shares(s, list, from) then from else Sharer(s, list, from + 1)
  }

  /** The nodes that leave the list with an owner when call c clears the head, and that owner. */
  function Taker(form: Form, s: State, v: View, c: nat): nat {
    if form == Swap then c else Sharer(s, v.list)
  }

  function Taken(form: Form, s: State, v: View): seq<Addr> {
    if form == Swap then v.list
    else
      var d := Sharer(s, v.list);
      if d < |s.calls| then Suffix(v.list, s.calls[d].seen) else []
  }

  function Missed(form: Form, s: State, v: View): seq<Addr> {
    v.list[..|v.list| - |Taken(form, s, v)|]
  }

  /** The list is emptied: its end `taken` goes to call d, its front `missed` to nobody. */
  function HandOver(v: View, d: nat, missed: seq<Addr>, taken: seq<Addr>): View {
    View([], if d < |v.held| && taken != [] then v.held[d := taken] else v.held, v.lost + missed,
         map a | a in v.owner :: if a in taken then Private(d) else if a in missed then Lost else v.owner[a])
  }

  function NextView(form: Form, s: State, v: View, m: Move): View
    requires Enabled(s, m) && |v.held| == |s.calls|
  {
    var c := m.call;
    match s.calls[c]
    case InsertAlloc(_) =>
      v.(held := v.held[c := [m.addr]], owner := v.owner[m.addr := Private(c)])
    case InsertCas(_, n, seen) =>
      if s.head == seen then v.(list := [n] + v.list, held := v.held[c := []], owner := v.owner[n := Listed]) else v
    case CollectDetach(_) =>
      HandOver(v, Taker(form, s, v, c), Missed(form, s, v), Taken(form, s, v))
    case WalkFree(cur, _, _) =>
      v.(held := if v.held[c] == [] then v.held else v.held[c := v.held[c][1..]], owner := v.owner - {cur})
    case _ => v
  }
}
