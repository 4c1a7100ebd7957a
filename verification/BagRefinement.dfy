/** With the swapping collector the bag is an atomic stack with push and take-all; with either
    collector no value is duplicated or forgotten. */
module BagRefinement {
  import opened Common
  import opened BagMachine
  import opened BagInvariant
  import BagSafety

  function Data(heap: map<Addr, Node>, a: Addr): Value {
    if a in heap then heap[a].data else ""
  }

  function Values(heap: map<Addr, Node>, xs: seq<Addr>): (r: seq<Value>)
    ensures |r| == |xs|
  {
    seq(|xs|, i requires 0 <= i < |xs| => Data(heap, xs[i]))
  }

  // ----- the atomic stack

  datatype StackCall = Pushing(value: Value) | Pushed(value: Value) | Taking | Took(out: seq<Value>)
  datatype Stack = Stack(items: seq<Value>, calls: seq<StackCall>)
  datatype Op = Push(call: nat) | TakeAll(call: nat)

  predicate OpEnabled(a: Stack, op: Op) {
    && op.call < |a.calls|
    && match op
       case Push(c) => a.calls[c].Pushing?
       case TakeAll(c) => a.calls[c].Taking?
  }

  function Apply(a: Stack, op: Op): Stack
    requires OpEnabled(a, op)
  {
    match op
    case Push(c) => Stack([a.calls[c].value] + a.items, a.calls[c := Pushed(a.calls[c].value)])
    case TakeAll(c) => Stack([], a.calls[c := Took(a.items)])
  }

  ghost predicate Sequential(a: Stack, ops: seq<Op>)
    decreases |ops|
  {
    ops == [] || (OpEnabled(a, ops[0]) && Sequential(Apply(a, ops[0]), ops[1..]))
  }

  ghost function ApplyAll(a: Stack, ops: seq<Op>): Stack
    requires Sequential(a, ops)
    decreases |ops|
  {
    if ops == [] then a else ApplyAll(Apply(a, ops[0]), ops[1..])
  }

  // ----- the abstraction

  /** Held nodes whose data the call has not read yet. */
  function Unread(s: State, v: View, c: nat): seq<Addr>
    requires c < |s.calls| == |v.held|
  {
    if (s.calls[c].WalkNext? || s.calls[c].WalkFree?) && v.held[c] != [] then v.held[c][1..]
    else if s.calls[c].OwnsNode() then [] else v.held[c]
  }

  function Output(call: Call): seq<Value> {
    if call.Walking() || call.Collected? then call.out else []
  }

  /** What the call has printed and what it is still going to print. */
  function Claimed(s: State, v: View, c: nat): seq<Value>
    requires c < |s.calls| == |v.held|
  {
    Output(s.calls[c]) + Values(s.heap, Unread(s, v, c))
  }

  function AbstractCall(s: State, v: View, c: nat): StackCall
    requires c < |s.calls| == |v.held|
  {
    match s.calls[c]
    case Inserted(val) => Pushed(val)
    case CollectLoad => Taking
    case CollectDetach(_) => Taking
    case Collected(out) => Took(out)
    case _ => if s.calls[c].Inserting() then Pushing(s.calls[c].value) else Took(Claimed(s, v, c))
  }

  function Abstract(s: State, v: View): Stack
    requires |s.calls| == |v.held|
  {
    Stack(Values(s.heap, v.list), seq(|s.calls|, c requires 0 <= c < |s.calls| => AbstractCall(s, v, c)))
  }

  /** The step at which a call takes effect: a push at its winning compare-and-swap, a take-all at
      its swap, or at the load that finds the bag empty. */
  function Effect(s: State, m: Move): Option<Op>
    requires Enabled(s, m)
  {
    match s.calls[m.call]
    case InsertCas(_, _, seen) => if s.head == seen then Some(Push(m.call)) else None
    case CollectLoad => if s.head == NULL then Some(TakeAll(m.call)) else None
    case CollectDetach(_) => Some(TakeAll(m.call))
    case _ => None
  }

  // ----- simulation

  lemma ValuesFrame(heap: map<Addr, Node>, heap': map<Addr, Node>, xs: seq<Addr>)
    requires forall a :: a in xs ==> Data(heap', a) == Data(heap, a)
    ensures Values(heap', xs) == Values(heap, xs)
  {
    forall i | 0 <= i < |xs| ensures Data(heap', xs[i]) == Data(heap, xs[i]) {
      assert xs[i] in xs;
    }
  }

  /** A step leaves what every other call has claimed unchanged. */
  lemma OthersKeepClaims(form: Form, s: State, v: View, m: Move, c: nat)
    requires Inv(form, s, v) && Enabled(s, m) && c < |s.calls| && c != m.call
    requires form == Swap || !s.calls[m.call].CollectDetach?
    ensures Next(form, s, m).calls[c] == s.calls[c] && NextView(form, s, v, m).held[c] == v.held[c]
    ensures Claimed(Next(form, s, m), NextView(form, s, v, m), c) == Claimed(s, v, c)
  {
    assert |v.held| == |s.calls|;
    HeldDataKept(form, s, v, m, c);
    hide Inv;
    var t, w := Next(form, s, m), NextView(form, s, v, m);
    assert w.held[c] == v.held[c] && t.calls[c] == s.calls[c];
    hide Next, NextView;
    assert Unread(t, w, c) == Unread(s, v, c);
    assert forall a :: a in Unread(s, v, c) ==> a in v.held[c];
    ValuesFrame(s.heap, t.heap, Unread(s, v, c));
  }

  lemma HeldDataKept(form: Form, s: State, v: View, m: Move, c: nat)
    requires Inv(form, s, v) && Enabled(s, m) && c < |s.calls| && c != m.call
    ensures forall a :: a in v.held[c] ==> Data(Next(form, s, m).heap, a) == Data(s.heap, a)
  {
    var b := m.call;
    assert CallOk(form, s, v, b);
    assert s.calls[b].OwnsNode() || s.calls[b].WalkFree? ==> v.held[b] != [];
    forall a | a in v.held[c] ensures Data(Next(form, s, m).heap, a) == Data(s.heap, a) {
      BagSafety.HeldApart(form, s, v, c, a);
      if s.calls[b].OwnsNode() || s.calls[b].WalkFree? {
        assert v.held[b][0] in v.held[b];
      }
    }
  }

  /** A step that is not a winning compare-and-swap or a detach leaves the listed values alone. */
  lemma ListKept(form: Form, s: State, v: View, m: Move)
    requires Inv(form, s, v) && Enabled(s, m) && !CasWins(s, m) && !s.calls[m.call].CollectDetach?
    ensures NextView(form, s, v, m).list == v.list
    ensures Values(Next(form, s, m).heap, v.list) == Values(s.heap, v.list)
  {
    var t := Next(form, s, m);
    assert CallOk(form, s, v, m.call);
    forall i | 0 <= i < |v.list| ensures Data(t.heap, v.list[i]) == Data(s.heap, v.list[i]) {
      assert v.list[i] in v.list;
      if s.calls[m.call].OwnsNode() || s.calls[m.call].WalkFree? {
        assert v.held[m.call][0] in v.held[m.call];
      }
    }
  }

  lemma WalkReads(form: Form, s: State, v: View, m: Move)
    requires Inv(form, s, v) && Enabled(s, m) && s.calls[m.call].Walk?
    ensures Claimed(Next(form, s, m), NextView(form, s, v, m), m.call) == Claimed(s, v, m.call)
  {
    var c := m.call;
    assert CallOk(form, s, v, c) && v.held[c] == [] <==> s.calls[c].cur == NULL;
    var cur, out := s.calls[c].cur, s.calls[c].out;
    if cur != NULL {
      var rest := v.held[c][1..];
      assert cur in s.heap && v.held[c][0] == cur;
      hide Inv, CallOk, Values;
      FirstValue(s.heap, v.held[c]);
      Associate(out, [s.heap[cur].data], Values(s.heap, rest));
      assert Next(form, s, m).calls[c] == WalkNext(cur, out + [s.heap[cur].data]);
    }
  }

  lemma FirstValue(heap: map<Addr, Node>, xs: seq<Addr>)
    requires xs != []
    ensures Values(heap, xs) == [Data(heap, xs[0])] + Values(heap, xs[1..])
  {
  }

  lemma WalkFrees(form: Form, s: State, v: View, m: Move)
    requires Inv(form, s, v) && Enabled(s, m) && s.calls[m.call].WalkFree?
    ensures Claimed(Next(form, s, m), NextView(form, s, v, m), m.call) == Claimed(s, v, m.call)
  {
    var t, c := Next(form, s, m), m.call;
    assert CallOk(form, s, v, c);
    var rest := v.held[c][1..];
    assert v.held[c][0] !in rest by {
      assert NoRepeats(v.held[c]);
    }
    ValuesFrame(s.heap, t.heap, rest);
  }

  /** Reading, following and freeing a node leaves the walking call's claim unchanged. */
  lemma WalkKeepsClaim(form: Form, s: State, v: View, m: Move)
    requires Inv(form, s, v) && Enabled(s, m) && s.calls[m.call].Walking()
    ensures Next(form, s, m).calls[m.call].Walking() || Next(form, s, m).calls[m.call].Collected?
    ensures Claimed(Next(form, s, m), NextView(form, s, v, m), m.call) == Claimed(s, v, m.call)
  {
    assert CallOk(form, s, v, m.call);
    match s.calls[m.call] {
      case Walk(_, _) => WalkReads(form, s, v, m);
      case WalkFree(_, _, _) => WalkFrees(form, s, v, m);
      case _ =>
    }
  }

  /** Immunity to address reuse: a compare-and-swap that wins links its node to the current first
      node, so the list of values grows at the front by exactly the inserted one, even if the loaded
      head was freed, reallocated and published again in between. */
  lemma WinningCasPushes(form: Form, s: State, v: View, m: Move)
    requires Inv(form, s, v) && Enabled(s, m) && CasWins(s, m)
    ensures var call := s.calls[m.call];
            && call.node in s.heap && s.heap[call.node].next == s.head
            && Next(form, s, m).heap == s.heap
            && NextView(form, s, v, m).list == [call.node] + v.list
            && Values(s.heap, [call.node] + v.list) == [call.value] + Values(s.heap, v.list)
  {
    assert CallOk(form, s, v, m.call);
  }

  /** The link of a published node never changes while the node is listed. */
  lemma PublishedLinksAreStable(form: Form, s: State, v: View, m: Move, a: Addr)
    requires Inv(form, s, v) && Enabled(s, m) && a in v.list
    ensures a in s.heap && a in Next(form, s, m).heap && Next(form, s, m).heap[a] == s.heap[a]
  {
    assert CallOk(form, s, v, m.call);
    if s.calls[m.call].OwnsNode() || s.calls[m.call].WalkFree? {
      assert v.held[m.call][0] in v.held[m.call];
    }
  }

  lemma QuietStep(s: State, v: View, m: Move)
    requires Inv(Swap, s, v) && Enabled(s, m) && Effect(s, m).None?
    ensures |Next(Swap, s, m).calls| == |s.calls| == |NextView(Swap, s, v, m).held|
    ensures AbstractCall(Next(Swap, s, m), NextView(Swap, s, v, m), m.call) == AbstractCall(s, v, m.call)
  {
    assert |v.held| == |s.calls|;
    if s.calls[m.call].Walking() {
      hide Inv;
      QuietWalk(s, v, m);
    } else {
      hide Inv, Claimed;
    }
  }

  lemma QuietWalk(s: State, v: View, m: Move)
    requires Inv(Swap, s, v) && Enabled(s, m) && s.calls[m.call].Walking()
    ensures |Next(Swap, s, m).calls| == |s.calls| == |NextView(Swap, s, v, m).held|
    ensures AbstractCall(Next(Swap, s, m), NextView(Swap, s, v, m), m.call) == AbstractCall(s, v, m.call)
  {
    var t, w, c := Next(Swap, s, m), NextView(Swap, s, v, m), m.call;
    assert |v.held| == |s.calls|;
    hide Inv, Claimed, Values, Output, Unread;
    assert c < |t.calls| == |s.calls| == |w.held|;
    WalkKeepsClaim(Swap, s, v, m);
    WalkEnds(Swap, s, v, m);
    hide Next, NextView;
  }

  /** A finished collect claims what it has printed. */
  lemma CollectedClaim(form: Form, s: State, v: View, c: nat)
    requires Inv(form, s, v) && c < |s.calls| && s.calls[c].Collected?
    ensures Claimed(s, v, c) == s.calls[c].out
  {
    assert CallOk(form, s, v, c);
  }

  /** A collect that finishes has printed all it claimed. */
  lemma WalkEnds(form: Form, s: State, v: View, m: Move)
    requires Inv(form, s, v) && Enabled(s, m) && s.calls[m.call].Walking()
    ensures |Next(form, s, m).calls| == |s.calls| == |NextView(form, s, v, m).held|
    ensures Next(form, s, m).calls[m.call].Collected? ==>
              Claimed(Next(form, s, m), NextView(form, s, v, m), m.call) == Next(form, s, m).calls[m.call].out
  {
    assert CallOk(form, s, v, m.call);
  }

  lemma EffectStep(s: State, v: View, m: Move)
    requires Inv(Swap, s, v) && Enabled(s, m) && Effect(s, m).Some?
    ensures |Next(Swap, s, m).calls| == |s.calls| == |NextView(Swap, s, v, m).held|
    ensures var t, w := Next(Swap, s, m), NextView(Swap, s, v, m);
            match Effect(s, m).value
            case Push(c) =>
              && s.calls[c].Inserting() && AbstractCall(t, w, c) == Pushed(s.calls[c].value)
              && Values(t.heap, w.list) == [s.calls[c].value] + Values(s.heap, v.list)
            case TakeAll(c) =>
              && AbstractCall(s, v, c) == Taking && AbstractCall(t, w, c) == Took(Values(s.heap, v.list))
              && w.list == []
  {
    var t, w, c := Next(Swap, s, m), NextView(Swap, s, v, m), m.call;
    assert CallOk(Swap, s, v, c);
    match s.calls[c] {
      case InsertCas(_, _, _) => WinningCasPushes(Swap, s, v, m);
      case CollectDetach(_) =>
        assert Claimed(t, w, c) == Values(s.heap, v.list);
      case CollectLoad =>
        assert v.list == [];
    }
  }

  lemma OthersKeepCalls(s: State, v: View, m: Move, c: nat)
    requires Inv(Swap, s, v) && Enabled(s, m) && c < |s.calls| && c != m.call
    ensures |Next(Swap, s, m).calls| == |s.calls| == |NextView(Swap, s, v, m).held|
    ensures AbstractCall(Next(Swap, s, m), NextView(Swap, s, v, m), c) == AbstractCall(s, v, c)
  {
    OthersKeepClaims(Swap, s, v, m, c);
  }

  /** One step of the bag is one operation of the stack, or none. */
  lemma StepSimulates(s: State, v: View, m: Move)
    requires Inv(Swap, s, v) && Enabled(s, m)
    ensures Inv(Swap, Next(Swap, s, m), NextView(Swap, s, v, m))
    ensures var a, b := Abstract(s, v), Abstract(Next(Swap, s, m), NextView(Swap, s, v, m));
            match Effect(s, m)
            case None => b == a
            case Some(op) => OpEnabled(a, op) && b == Apply(a, op)
  {
    BagSafety.StepSafe(Swap, s, v, m);
    var a, b := Abstract(s, v), Abstract(Next(Swap, s, m), NextView(Swap, s, v, m));
    forall i | 0 <= i < |s.calls| && i != m.call ensures b.calls[i] == a.calls[i] {
      OthersKeepCalls(s, v, m, i);
    }
    match Effect(s, m) {
      case None =>
        QuietStep(s, v, m);
        ListKept(Swap, s, v, m);
        assert b.calls == a.calls;
      case Some(op) =>
        EffectStep(s, v, m);
        assert b.calls == Apply(a, op).calls;
    }
  }

  ghost function RunView(form: Form, s: State, v: View, moves: seq<Move>): View
    requires ValidRun(form, s, moves) && |v.held| == |s.calls|
    decreases |moves|
  {
    if moves == [] then v else RunView(form, Next(form, s, moves[0]), NextView(form, s, v, moves[0]), moves[1..])
  }

  ghost function Effects(s: State, moves: seq<Move>): seq<Op>
    requires ValidRun(Swap, s, moves)
    decreases |moves|
  {
    if moves == [] then []
    else
      (match Effect(s, moves[0]) case None => [] case Some(op) => [op])
      + Effects(Next(Swap, s, moves[0]), moves[1..])
  }

  lemma {:induction false} RunSimulates(s: State, v: View, moves: seq<Move>)
    requires Inv(Swap, s, v) && ValidRun(Swap, s, moves)
    ensures var t, w := Run(Swap, s, moves), RunView(Swap, s, v, moves);
            && Inv(Swap, t, w)
            && Sequential(Abstract(s, v), Effects(s, moves))
            && ApplyAll(Abstract(s, v), Effects(s, moves)) == Abstract(t, w)
    decreases |moves|
  {
    if moves != [] {
      StepSimulates(s, v, moves[0]);
      RunSimulates(Next(Swap, s, moves[0]), NextView(Swap, s, v, moves[0]), moves[1..]);
      match Effect(s, moves[0]) {
        case None => assert Effects(s, moves) == Effects(Next(Swap, s, moves[0]), moves[1..]);
        case Some(op) => assert Effects(s, moves)[1..] == Effects(Next(Swap, s, moves[0]), moves[1..]);
      }
    }
  }

  function EmptyView(s: State): View {
    View([], seq(|s.calls|, _ => []), [], map[])
  }

  function StartOf(call: Call): StackCall {
    if call.InsertAlloc? then Pushing(call.value) else Taking
  }

  /** The stack on which every call of s is still to happen. */
  function EmptyStack(s: State): Stack {
    Stack([], seq(|s.calls|, c requires 0 <= c < |s.calls| => StartOf(s.calls[c])))
  }

  lemma InitialInv(form: Form, s: State)
    requires Initial(s)
    ensures Inv(form, s, EmptyView(s))
    ensures Abstract(s, EmptyView(s)) == EmptyStack(s)
  {
  }

  /** What the stack a, on which the bag's effects so far were carried out one after the other,
      says about the bag state t. */
  ghost predicate Explains(a: Stack, t: State) {
    && |a.calls| == |t.calls|
    && (exists list :: Chain(t.heap, t.head, list) && a.items == Values(t.heap, list))
    && (forall c :: 0 <= c < |t.calls| ==>
          && (t.calls[c].Inserted? <==> a.calls[c].Pushed?)
          && (t.calls[c].Inserted? ==> a.calls[c].value == t.calls[c].value)
          && (t.calls[c].Collected? ==> a.calls[c] == Took(t.calls[c].out)))
  }

  lemma AbstractExplains(s: State, v: View)
    requires Inv(Swap, s, v)
    ensures Explains(Abstract(s, v), s)
  {
    assert Chain(s.heap, s.head, v.list);
    forall c | 0 <= c < |s.calls| ensures Abstract(s, v).calls[c] == AbstractCall(s, v, c) {}
  }

  /** Linearizability of the bag with the swapping collector, for any number of inserters and
      collectors and every interleaving: the calls' effects, in the order of the steps at which they
      happen, form a legal sequential run of a stack; every finished insert has pushed its value and
      every finished collect has printed exactly what that sequential run took; no step touches
      freed memory. */
  lemma SwapBagIsAtomicStack(s: State, moves: seq<Move>)
    requires Initial(s) && ValidRun(Swap, s, moves)
    ensures !Run(Swap, s, moves).fault
    ensures Sequential(EmptyStack(s), Effects(s, moves))
    ensures Explains(ApplyAll(EmptyStack(s), Effects(s, moves)), Run(Swap, s, moves))
  {
    InitialInv(Swap, s);
    RunSimulates(s, EmptyView(s), moves);
    AbstractExplains(Run(Swap, s, moves), RunView(Swap, s, EmptyView(s), moves));
  }
}
