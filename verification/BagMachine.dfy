/** The lock-free bag of inputs/crossbeam_10c0012/src/main.rs as a machine that takes one
    shared-memory access per step.

    Any number of insert and collect calls are in flight at once and a move names the call that
    takes the next step.  Memory is a map from addresses to live nodes, so an address that was
    freed can be handed out again.  Touching an address that is not live raises `fault`. */
module BagMachine {
  type Addr = nat
  type Value = string

  const NULL: Addr := 0

  datatype Node = Node(data: Value, next: Addr)

  /** The shipped collector loads the head and later stores null; the commented one swaps. */
  datatype Form = LoadThenStore | Swap

  /** Where a call is.  The name says which access comes next. */
  datatype Call =
    | InsertAlloc(value: Value)
    | InsertLoad(value: Value, node: Addr)
    | InsertLink(value: Value, node: Addr, seen: Addr)
    | InsertCas(value: Value, node: Addr, seen: Addr)
    | Inserted(value: Value)
    | CollectLoad
    | CollectDetach(seen: Addr)
    | Walk(cur: Addr, out: seq<Value>)
    | WalkNext(cur: Addr, out: seq<Value>)
    | WalkFree(cur: Addr, next: Addr, out: seq<Value>)
    | Collected(out: seq<Value>)
  {
    predicate Done() { Inserted? || Collected? }
    predicate Start() { InsertAlloc? || CollectLoad? }
    predicate Retrying() { InsertLink? || InsertCas? }
    predicate Inserting() { InsertAlloc? || InsertLoad? || Retrying() }
    predicate OwnsNode() { InsertLoad? || Retrying() }
    predicate Walking() { Walk? || WalkNext? || WalkFree? }
    /** The call has not written the head yet, and may still do so. */
    predicate Writer() { Inserting() || CollectLoad? || CollectDetach? }
  }

  datatype State = State(head: Addr, heap: map<Addr, Node>, calls: seq<Call>, fault: bool)

  /** `call` takes its next step; `addr` is the allocator's answer when that step allocates. */
  datatype Move = Move(call: nat, addr: Addr)

  predicate Enabled(s: State, m: Move) {
    && !s.fault
    && m.call < |s.calls|
    && !s.calls[m.call].Done()
    && (s.calls[m.call].InsertAlloc? ==> m.addr != NULL && m.addr !in s.heap)
  }

  function Next(form: Form, s: State, m: Move): State
    requires Enabled(s, m)
  {
    var c := m.call;
    match s.calls[c]
    case InsertAlloc(v) =>
      s.(heap := s.heap[m.addr := Node(v, NULL)], calls := s.calls[c := InsertLoad(v, m.addr)])
    case InsertLoad(v, n) =>
      s.(calls := s.calls[c := InsertLink(v, n, s.head)])
    case InsertLink(v, n, seen) =>
      if n !in s.heap then s.(fault := true)
      else s.(heap := s.heap[n := s.heap[n].(next := seen)], calls := s.calls[c := InsertCas(v, n, seen)])
    case InsertCas(v, n, seen) =>
      if s.head == seen then s.(head := n, calls := s.calls[c := Inserted(v)])
      else s.(calls := s.calls[c := InsertLoad(v, n)])
    case CollectLoad =>
      if form == Swap && s.head == NULL then s.(calls := s.calls[c := Collected([])])
      else s.(calls := s.calls[c := CollectDetach(s.head)])
    case CollectDetach(seen) =>
      s.(head := NULL, calls := s.calls[c := Walk(if form == Swap then s.head else seen, [])])
    case Walk(cur, out) =>
      if cur == NULL then s.(calls := s.calls[c := Collected(out)])
      else if cur !in s.heap then s.(fault := true)
      else s.(calls := s.calls[c := WalkNext(cur, out + [s.heap[cur].data])])
    case WalkNext(cur, out) =>
      if cur !in s.heap then s.(fault := true)
      else s.(calls := s.calls[c := WalkFree(cur, s.heap[cur].next, out)])
    case WalkFree(cur, next, out) =>
      if cur !in s.heap then s.(fault := true)
      else s.(heap := s.heap - {cur}, calls := s.calls[c := Walk(next, out)])
    case _ => s
  }

  ghost predicate ValidRun(form: Form, s: State, moves: seq<Move>)
    decreases |moves|
  {
    moves == [] || (Enabled(s, moves[0]) && ValidRun(form, Next(form, s, moves[0]), moves[1..]))
  }

  ghost function Run(form: Form, s: State, moves: seq<Move>): State
    requires ValidRun(form, s, moves)
    decreases |moves|
  {
    if moves == [] then s else Run(form, Next(form, s, moves[0]), moves[1..])
  }

  lemma RunCons(form: Form, s: State, m: Move, rest: seq<Move>)
    requires Enabled(s, m) && ValidRun(form, Next(form, s, m), rest)
    ensures ValidRun(form, s, [m] + rest)
    ensures Run(form, s, [m] + rest) == Run(form, Next(form, s, m), rest)
  {
    assert ([m] + rest)[1..] == rest;
  }

  /** Runs compose. */
  lemma {:induction false} RunAppend(form: Form, s: State, xs: seq<Move>, ys: seq<Move>)
    requires ValidRun(form, s, xs) && ValidRun(form, Run(form, s, xs), ys)
    ensures ValidRun(form, s, xs + ys)
    ensures Run(form, s, xs + ys) == Run(form, Run(form, s, xs), ys)
    decreases |xs|
  {
    if xs == [] {
      assert xs + ys == ys;
    } else {
      RunAppend(form, Next(form, s, xs[0]), xs[1..], ys);
      RunCons(form, s, xs[0], xs[1..] + ys);
      assert xs + ys == [xs[0]] + (xs[1..] + ys);
    }
  }

  /** An empty bag with any number of calls about to start. */
  predicate Initial(s: State) {
    s.head == NULL && s.heap == map[] && !s.fault && forall c :: 0 <= c < |s.calls| ==> s.calls[c].Start()
  }

  /** The move is an insert's compare-and-swap that wins, or that loses. */
  predicate CasWins(s: State, m: Move) {
    m.call < |s.calls| && s.calls[m.call].InsertCas? && s.head == s.calls[m.call].seen
  }

  predicate CasFails(s: State, m: Move) {
    m.call < |s.calls| && s.calls[m.call].InsertCas? && s.head != s.calls[m.call].seen
  }
}
