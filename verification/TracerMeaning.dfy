/** The instrumented program does what the original does, and its trace is exactly the sequence of
    debug-located loads, stores and recognised lock operations the original executes. */
module TracerMeaning {
  import opened Common
  import opened TracerIR
  import opened TracerPass

  /** The lock a lock operation is about: its argument, or for an unlock the first word of the guard
      its argument points to. */
  function LockAddress(op: LockOp, v: Value, mem: map<Value, Value>): Value {
    if op.MutexUnlock? || op.ReadUnlock? || op.WriteUnlock? then Read(mem, v) else v
  }

  /** What the tracer promises to record when i is executed in d. */
  function Observe(func: string, i: Instr, d: Data): seq<Record> {
    if i.dbg.None? then []
    else match i.op
      case Store(_, ptr) => [Record(i.dbg.value, func, "store", Eval(ptr, d))]
      case Load(ptr) => [Record(i.dbg.value, func, "load", Eval(ptr, d))]
      case Invoke(Recognised(op), args, _, _) => ObserveLock(i.dbg.value, func, op, args, d)
      case _ => []
  }

  /** For a lock call the lock that is passed, for an unlock the first word behind the guard that is. */
  function ObserveLock(line: nat, func: string, op: LockOp, args: seq<Operand>, d: Data): seq<Record> {
    match op
    case MutexLock => if |args| > 1 then [Record(line, func, "lock", Eval(args[1], d))] else []
    case ReadLock => if |args| > 0 then [Record(line, func, "rwlock read lock", Eval(args[0], d))] else []
    case WriteLock => if |args| > 1 then [Record(line, func, "rwlock write lock", Eval(args[1], d))] else []
    case MutexUnlock => if |args| > 0 then [Record(line, func, "unlock", Read(d.mem, Eval(args[0], d)))] else []
    case ReadUnlock =>
      if |args| > 0 then [Record(line, func, "rwlock read unlock", Read(d.mem, Eval(args[0], d)))] else []
    case WriteUnlock =>
      if |args| > 0 then [Record(line, func, "rwlock write unlock", Read(d.mem, Eval(args[0], d)))] else []
  }

  /** The branches of the pass look at the right argument. */
  lemma ObserveLockArg(line: nat, func: string, op: LockOp, args: seq<Operand>, d: Data)
    ensures ObserveLock(line, func, op, args, d) ==
            if LockArg(op) < |args|
            then [Record(line, func, LockName(op), LockAddress(op, Eval(args[LockArg(op)], d), d.mem))]
            else []
  {
  }

  /** A step of the original program that also writes down what the tracer promises to record. */
  function ObservedStep(env: Env, cx: Context, p: Program, c: Config): Config {
    var c' := Step(env, p, c);
    if Fetches(p, c.place) then
      c'.(data := c'.data.(trace := c'.data.trace + Observe(cx.func, p[c.place.block][c.place.index], c.data)))
    else c'
  }

  function ObservedSteps(env: Env, cx: Context, p: Program, c: Config, n: nat): Config
    decreases n
  {
    if n == 0 then c else ObservedSteps(env, cx, p, ObservedStep(env, cx, p, c), n - 1)
  }

  function InstrumentAll(cx: Context, p: Program): (q: Program)
    ensures |q| == |p|
  {
    seq(|p|, b requires 0 <= b < |p| => Instrument(cx, p[b]))
  }

  // ----- well-formed originals

  predicate OwnOperand(o: Operand) { o.Register? ==> o.reg.Own? }

  predicate OwnOperands(os: seq<Operand>) { forall k :: 0 <= k < |os| ==> OwnOperand(os[k]) }

  /** An instruction of the program before the pass: it uses original values only, a load does not
      overwrite its own address (static single assignment), and it is no probe. */
  predicate WellFormed(i: Instr) {
    && i.dst.Own?
    && match i.op
       case Store(val, ptr) => OwnOperand(val) && OwnOperand(ptr)
       case Load(ptr) => OwnOperand(ptr) && ptr != Register(i.dst)
       case Invoke(_, args, _, _) => OwnOperands(args)
       case Call(_, args) => OwnOperands(args)
       case Arith(_, a, b) => OwnOperand(a) && OwnOperand(b)
       case Branch(cond, _, _) => OwnOperand(cond)
       case Ret => true
       case BitCast(v) => OwnOperand(v)
       case FieldZero(v) => OwnOperand(v)
       case _ => false
  }

  predicate WellFormedProgram(p: Program) {
    forall b, k :: 0 <= b < |p| && 0 <= k < |p[b]| ==> WellFormed(p[b][k])
  }

  // ----- the simulation relation

  /** Same memory, same trace, same original values; helper values are free. */
  ghost predicate Agree(d: Data, e: Data) {
    && e.mem == d.mem && e.trace == d.trace
    && forall id :: Get(e.regs, Own(id)) == Get(d.regs, Own(id))
  }

  /** Where the k-th original instruction of a block starts after the pass. */
  function Offset(cx: Context, s: seq<Instr>, k: nat): nat
    requires k <= |s|
  {
    if k == 0 then 0 else |Expand(cx, s)| + Offset(cx, s[1..], k - 1)
  }

  ghost predicate Matches(cx: Context, p: Program, c: Config, e: Config) {
    && Agree(c.data, e.data)
    && match c.place
       case At(b, k) =>
         if b < |p| && k <= |p[b]| then e.place == At(b, Offset(cx, p[b], k))
         else b >= |p| && e.place == At(b, k)
       case place => e.place == place
  }

  /** Executing a straight piece of code. */
  function RunStraight(env: Env, code: seq<Instr>, d: Data): Data {
    if code == [] then d else RunStraight(env, code[1..], Straight(env, code[0], d))
  }

  predicate StraightCode(code: seq<Instr>) { forall k :: 0 <= k < |code| ==> !Transfers(code[k].op) }

  lemma {:induction false} RunStraightAppend(env: Env, xs: seq<Instr>, ys: seq<Instr>, d: Data)
    ensures RunStraight(env, xs + ys, d) == RunStraight(env, ys, RunStraight(env, xs, d))
  {
    if xs == [] {
      assert xs + ys == ys;
    } else {
      assert (xs + ys)[1..] == xs[1..] + ys && (xs + ys)[0] == xs[0];
      RunStraightAppend(env, xs[1..], ys, Straight(env, xs[0], d));
    }
  }

  /** The machine executes a straight piece of code in as many steps as it has instructions. */
  lemma {:induction false} StepsStraight(env: Env, q: Program, b: nat, k: nat, code: seq<Instr>, d: Data)
    requires b < |q| && k + |code| <= |q[b]| && q[b][k..k + |code|] == code && StraightCode(code)
    ensures Steps(env, q, Config(d, At(b, k)), |code|) == Config(RunStraight(env, code, d), At(b, k + |code|))
    decreases |code|
  {
    if code != [] {
      assert q[b][k] == code[0];
      assert q[b][k + 1..k + 1 + |code[1..]|] == code[1..];
      StepsStraight(env, q, b, k + 1, code[1..], Straight(env, code[0], d));
    }
  }

  lemma {:induction false} OffsetFits(cx: Context, s: seq<Instr>, k: nat)
    requires k < |s|
    ensures Offset(cx, s, k + 1) == Offset(cx, s, k) + |Expand(cx, s[k..])| <= |Instrument(cx, s)|
    ensures Instrument(cx, s)[Offset(cx, s, k)..Offset(cx, s, k + 1)] == Expand(cx, s[k..])
    decreases k
  {
    hide Expand;
    var e, rest := Expand(cx, s), Instrument(cx, s[1..]);
    assert Instrument(cx, s) == e + rest;
    if k == 0 {
      assert s[0..] == s && Offset(cx, s[1..], 0) == 0;
      SliceOfSum(e, rest, 0, 0);
    } else {
      OffsetFits(cx, s[1..], k - 1);
      assert s[1..][k - 1..] == s[k..];
      var from, to := Offset(cx, s[1..], k - 1), Offset(cx, s[1..], k);
      assert Offset(cx, s, k) == |e| + from && Offset(cx, s, k + 1) == |e| + to;
      SliceOfSum(e, rest, from, to);
    }
  }

  lemma SliceOfSum<T>(xs: seq<T>, ys: seq<T>, from: nat, to: nat)
    requires from <= to <= |ys|
    ensures (xs + ys)[|xs| + from..|xs| + to] == ys[from..to]
    ensures (xs + ys)[0..|xs|] == xs
  {
  }

  lemma {:induction false} OffsetEnd(cx: Context, s: seq<Instr>)
    ensures Offset(cx, s, |s|) == |Instrument(cx, s)|
  {
    if s != [] {
      OffsetEnd(cx, s[1..]);
    }
  }

  // ----- the inserted code

  /** e is d with the records `extra` already written and helper values free. */
  ghost predicate Ahead(d: Data, e: Data, extra: seq<Record>) {
    && e.mem == d.mem && e.trace == d.trace + extra
    && forall id :: Get(e.regs, Own(id)) == Get(d.regs, Own(id))
  }

  lemma AheadTrans(d: Data, e: Data, f: Data, xs: seq<Record>, ys: seq<Record>)
    requires Ahead(d, e, xs) && Ahead(e, f, ys)
    ensures Ahead(d, f, xs + ys)
  {
    forall id ensures Get(f.regs, Own(id)) == Get(d.regs, Own(id)) {
      assert Get(f.regs, Own(id)) == Get(e.regs, Own(id));
    }
  }

  lemma OwnEval(o: Operand, d: Data, e: Data)
    requires OwnOperand(o) && forall id :: Get(e.regs, Own(id)) == Get(d.regs, Own(id))
    ensures Eval(o, e) == Eval(o, d)
  {
    if o.Register? {
      assert o.reg == Own(o.reg.id);
    }
  }

  lemma OwnEvals(os: seq<Operand>, d: Data, e: Data)
    requires OwnOperands(os) && forall id :: Get(e.regs, Own(id)) == Get(d.regs, Own(id))
    ensures EvalAll(os, e) == EvalAll(os, d)
  {
    forall k | 0 <= k < |os| ensures Eval(os[k], e) == Eval(os[k], d) {
      OwnEval(os[k], d, e);
    }
  }

  lemma RunTwo(env: Env, a: Instr, b: Instr, d: Data)
    ensures RunStraight(env, [a], d) == Straight(env, a, d)
    ensures RunStraight(env, [a, b], d) == Straight(env, b, Straight(env, a, d))
  {
    assert [a][1..] == [] && [a, b][1..] == [b] && [b][1..] == [];
    assert RunStraight(env, [b], Straight(env, a, d)) == Straight(env, b, Straight(env, a, d));
  }

  /** A probe, with its cast if one is needed, records the value of its operand and nothing else. */
  lemma ProbeEffect(env: Env, cx: Context, id: nat, line: nat, name: string, v: Operand, dbg: Option<nat>, e: Data)
    requires v != Register(Aux(id, 0))
    ensures StraightCode(ProbeCode(cx, id, line, name, v, dbg))
            && StraightCode(ProbeLockCode(cx, id, line, name, v, dbg))
    ensures Ahead(e, RunStraight(env, ProbeCode(cx, id, line, name, v, dbg), e),
            [Record(line, cx.func, name, Eval(v, e))])
    ensures Ahead(e, RunStraight(env, ProbeLockCode(cx, id, line, name, v, dbg), e),
            [Record(line, cx.func, name, Eval(v, e))])
  {
    var cast := Instr(Aux(id, 0), BitCast(v), dbg);
    var probe := Instr(Aux(id, 1), Probe(line, cx.func, name, CastValue(cx, id, 0, v)), dbg);
    var probeLock := Instr(Aux(id, 1), ProbeLock(line, cx.func, name, CastValue(cx, id, 0, v)), dbg);
    if v in cx.castFree {
      assert ProbeCode(cx, id, line, name, v, dbg) == [probe];
      assert ProbeLockCode(cx, id, line, name, v, dbg) == [probeLock];
      RunTwo(env, probe, probe, e);
      RunTwo(env, probeLock, probe, e);
    } else {
      assert ProbeCode(cx, id, line, name, v, dbg) == [cast, probe];
      assert ProbeLockCode(cx, id, line, name, v, dbg) == [cast, probeLock];
      RunTwo(env, cast, probe, e);
      RunTwo(env, cast, probeLock, e);
    }
  }

  /** Reading the guard leaves its first word in the helper value, and touches nothing else. */
  lemma FirstFieldEffect(env: Env, id: nat, guard: Operand, dbg: Option<nat>, e: Data)
    requires OwnOperand(guard)
    ensures StraightCode(FirstFieldCode(id, guard, dbg))
    ensures var f := RunStraight(env, FirstFieldCode(id, guard, dbg), e);
            Ahead(e, f, []) && Eval(Register(Aux(id, 4)), f) == Read(e.mem, Eval(guard, e))
  {
    var code := FirstFieldCode(id, guard, dbg);
    var e1 := Straight(env, code[0], e);
    var e2 := Straight(env, code[1], e1);
    assert code[1..] == [code[1], code[2]];
    RunTwo(env, code[1], code[2], e1);
    OwnEval(guard, e, e1);
  }

  /** What is inserted before an instruction records what is promised for it, unless it is a load. */
  lemma BeforeEffect(env: Env, cx: Context, i: Instr, e: Data)
    requires WellFormed(i)
    ensures StraightCode(Before(cx, i))
    ensures Ahead(e, RunStraight(env, Before(cx, i), e), if i.op.Load? then [] else Observe(cx.func, i, e))
  {
    if i.dbg.Some? && i.op.Store? {
      ProbeEffect(env, cx, i.dst.id, i.dbg.value, "store", i.op.ptr, i.dbg, e);
    } else if i.dbg.Some? && i.op.Invoke? && i.op.callee.Recognised? && LockArg(i.op.callee.op) < |i.op.args| {
      ObserveLockArg(i.dbg.value, cx.func, i.op.callee.op, i.op.args, e);
      hide ObserveLock;
      InvokeEffect(env, cx, i.dst.id, i.dbg.value, i.op.callee.op, i.op.args[LockArg(i.op.callee.op)], i.dbg, e);
    } else {
      assert Before(cx, i) == [] && (i.op.Load? || Observe(cx.func, i, e) == []);
    }
  }

  lemma InvokeEffect(env: Env, cx: Context, id: nat, line: nat, op: LockOp, v: Operand, dbg: Option<nat>, e: Data)
    requires OwnOperand(v)
    ensures StraightCode(InvokeCode(cx, id, line, op, v, dbg))
    ensures Ahead(e, RunStraight(env, InvokeCode(cx, id, line, op, v, dbg), e),
                  [Record(line, cx.func, LockName(op), LockAddress(op, Eval(v, e), e.mem))])
  {
    var name := LockName(op);
    match op {
      case ReadUnlock =>
        var load, r := Instr(Aux(id, 2), Load(v), dbg), Register(Aux(id, 2));
        var e1 := Straight(env, load, e);
        RunTwo(env, load, load, e);
        ProbeThen(env, cx, [load], id, line, name, r, dbg, e, e1);
      case MutexUnlock => UnlockEffect(env, cx, id, line, name, v, dbg, e);
      case WriteUnlock => UnlockEffect(env, cx, id, line, name, v, dbg, e);
      case _ => ProbeEffect(env, cx, id, line, name, v, dbg, e);
    }
  }

  lemma UnlockEffect(env: Env, cx: Context, id: nat, line: nat, name: string, v: Operand, dbg: Option<nat>, e: Data)
    requires OwnOperand(v)
    ensures var code := FirstFieldCode(id, v, dbg) + ProbeLockCode(cx, id, line, name, Register(Aux(id, 4)), dbg);
            && StraightCode(code)
            && Ahead(e, RunStraight(env, code, e), [Record(line, cx.func, name, Read(e.mem, Eval(v, e)))])
  {
    FirstFieldEffect(env, id, v, dbg, e);
    ProbeThen(env, cx, FirstFieldCode(id, v, dbg), id, line, name, Register(Aux(id, 4)), dbg, e,
              RunStraight(env, FirstFieldCode(id, v, dbg), e));
  }

  lemma ProbeThen(env: Env, cx: Context, code: seq<Instr>, id: nat, line: nat, name: string, v: Operand,
                  dbg: Option<nat>, e: Data, e1: Data)
    requires StraightCode(code) && e1 == RunStraight(env, code, e) && Ahead(e, e1, []) && v != Register(Aux(id, 0))
    ensures StraightCode(code + ProbeLockCode(cx, id, line, name, v, dbg))
    ensures Ahead(e, RunStraight(env, code + ProbeLockCode(cx, id, line, name, v, dbg), e),
                  [Record(line, cx.func, name, Eval(v, e1))])
  {
    var probe := ProbeLockCode(cx, id, line, name, v, dbg);
    ProbeEffect(env, cx, id, line, name, v, dbg, e1);
    RunStraightAppend(env, code, probe, e);
    AheadTrans(e, e1, RunStraight(env, probe, e1), [], [Record(line, cx.func, name, Eval(v, e1))]);
    assert [] + [Record(line, cx.func, name, Eval(v, e1))] == [Record(line, cx.func, name, Eval(v, e1))];
  }

  /** The original instruction has the same effect ahead of the trace. */
  lemma SameEffect(env: Env, i: Instr, d: Data, e: Data, extra: seq<Record>)
    requires WellFormed(i) && Ahead(d, e, extra) && !Transfers(i.op)
    ensures Ahead(Straight(env, i, d), Straight(env, i, e), extra)
  {
    match i.op {
      case Store(val, ptr) => OwnEval(val, d, e); OwnEval(ptr, d, e);
      case Load(ptr) => OwnEval(ptr, d, e);
      case Call(_, args) => OwnEvals(args, d, e);
      case Arith(_, a, b) => OwnEval(a, d, e); OwnEval(b, d, e);
      case BitCast(v) => OwnEval(v, d, e);
      case FieldZero(v) => OwnEval(v, d, e);
    }
    var d', e' := Straight(env, i, d), Straight(env, i, e);
    forall id ensures Get(e'.regs, Own(id)) == Get(d'.regs, Own(id)) {
      assert Get(e.regs, Own(id)) == Get(d.regs, Own(id));
    }
  }

  lemma SameTransfer(env: Env, i: Instr, d: Data, e: Data, extra: seq<Record>)
    requires WellFormed(i) && Ahead(d, e, extra) && Transfers(i.op)
    ensures Ahead(Transfer(env, i, d).data, Transfer(env, i, e).data, extra)
    ensures Transfer(env, i, d).place == Transfer(env, i, e).place
  {
    match i.op {
      case Invoke(_, args, _, _) => OwnEvals(args, d, e);
      case Branch(cond, _, _) => OwnEval(cond, d, e);
      case Ret =>
    }
    var d', e' := Transfer(env, i, d).data, Transfer(env, i, e).data;
    forall id ensures Get(e'.regs, Own(id)) == Get(d'.regs, Own(id)) {
      assert Get(e.regs, Own(id)) == Get(d.regs, Own(id));
    }
  }

  /** After a load its probe records the address that was loaded. */
  lemma FollowingEffect(env: Env, cx: Context, i: Instr, next: Option<nat>, d: Data, e: Data)
    requires WellFormed(i) && !Transfers(i.op) && Agree(Straight(env, i, d), e)
    ensures StraightCode(Following(cx, i, next))
    ensures Ahead(Straight(env, i, d), RunStraight(env, Following(cx, i, next), e),
                  if i.op.Load? then Observe(cx.func, i, d) else [])
  {
    if i.op.Load? && i.dbg.Some? {
      var ptr := i.op.ptr;
      ProbeEffect(env, cx, i.dst.id, i.dbg.value, "load", ptr, next, e);
      var d' := Straight(env, i, d);
      OwnEval(ptr, d', e);
      assert Eval(ptr, d') == Eval(ptr, d);
      AheadTrans(d', e, RunStraight(env, Following(cx, i, next), e), [], Observe(cx.func, i, d));
      assert [] + Observe(cx.func, i, d) == Observe(cx.func, i, d);
    } else {
      assert Observe(cx.func, i, d) == [] || !i.op.Load?;
    }
  }

  // ----- simulation

  /** How many steps the instrumented program takes for one step of the original. */
  function Cost(cx: Context, p: Program, place: Place): nat {
    if Fetches(p, place) then |Expand(cx, p[place.block][place.index..])| else 1
  }

  /** Executing an expanded instruction that falls through. */
  lemma ExpandedFallsThrough(env: Env, cx: Context, q: Program, b: nat, o: nat, s: seq<Instr>, d: Data, e: Data)
    requires s != [] && WellFormed(s[0]) && !Transfers(s[0].op) && Agree(d, e)
    requires b < |q| && o + |Expand(cx, s)| <= |q[b]| && q[b][o..o + |Expand(cx, s)|] == Expand(cx, s)
    ensures var c := Steps(env, q, Config(e, At(b, o)), |Expand(cx, s)|);
            && c.place == At(b, o + |Expand(cx, s)|)
            && Ahead(Straight(env, s[0], d), c.data, Observe(cx.func, s[0], d))
  {
    var i, pre, post := s[0], Before(cx, s[0]), Following(cx, s[0], NextDbg(s));
    var d1 := Straight(env, i, d);
    BeforeEffect(env, cx, i, e);
    ObserveAgrees(cx.func, i, d, e);
    var obs := if i.op.Load? then [] else Observe(cx.func, i, d);
    var e1 := RunStraight(env, pre, e);
    AheadTrans(d, e, e1, [], obs);
    SameEffect(env, i, d, e1, [] + obs);
    var e2 := Straight(env, i, e1);
    RunTwo(env, i, i, e1);
    // for a load nothing is ahead yet, for anything else nothing follows
    var e3 := RunStraight(env, post, e2);
    if i.op.Load? {
      FollowingEffect(env, cx, i, NextDbg(s), d, e2);
    } else {
      assert post == [] && e3 == e2;
    }
    assert StraightCode(Expand(cx, s));
    RunStraightAppend(env, pre, [i], e);
    RunStraightAppend(env, pre + [i], post, e);
    StepsStraight(env, q, b, o, Expand(cx, s), e);
    assert [] + obs == obs;
  }

  lemma ObserveAgrees(func: string, i: Instr, d: Data, e: Data)
    requires WellFormed(i) && Agree(d, e)
    ensures Observe(func, i, e) == Observe(func, i, d)
  {
    match i.op {
      case Store(_, ptr) => OwnEval(ptr, d, e);
      case Load(ptr) => OwnEval(ptr, d, e);
      case Invoke(Recognised(op), args, _, _) =>
        if LockArg(op) < |args| {
          OwnEval(args[LockArg(op)], d, e);
        }
      case _ =>
    }
  }

  /** Executing an expanded instruction that ends its block. */
  lemma ExpandedTransfers(env: Env, cx: Context, q: Program, b: nat, o: nat, s: seq<Instr>, d: Data, e: Data)
    requires s != [] && WellFormed(s[0]) && Transfers(s[0].op) && Agree(d, e)
    requires b < |q| && o + |Expand(cx, s)| <= |q[b]| && q[b][o..o + |Expand(cx, s)|] == Expand(cx, s)
    ensures var c := Steps(env, q, Config(e, At(b, o)), |Expand(cx, s)|);
            && c.place == Transfer(env, s[0], d).place
            && Ahead(Transfer(env, s[0], d).data, c.data, Observe(cx.func, s[0], d))
  {
    var i, pre := s[0], Before(cx, s[0]);
    var obs := Observe(cx.func, i, d);
    assert Expand(cx, s) == pre + [i];
    BeforeEffect(env, cx, i, e);
    ObserveAgrees(cx.func, i, d, e);
    var e1 := RunStraight(env, pre, e);
    AheadTrans(d, e, e1, [], obs);
    assert [] + obs == obs;
    hide Before, Observe, Expand, Transfer, Ahead;
    SameTransfer(env, i, d, e1, obs);
    SliceParts(q[b], o, pre, i);
    StepsStraight(env, q, b, o, pre, e);
    StepsAdd(env, q, Config(e, At(b, o)), |pre|, 1);
    assert Steps(env, q, Config(e1, At(b, o + |pre|)), 1) == Transfer(env, i, e1);
  }

  lemma SliceParts<T>(xs: seq<T>, o: nat, pre: seq<T>, x: T)
    requires o + |pre| < |xs| && xs[o..o + |pre| + 1] == pre + [x]
    ensures xs[o..o + |pre|] == pre && xs[o + |pre|] == x
  {
    var ys := xs[o..o + |pre| + 1];
    assert xs[o..o + |pre|] == ys[..|pre|] && xs[o + |pre|] == ys[|pre|];
  }

  lemma ExtraIsTrace(d: Data, e: Data, extra: seq<Record>)
    requires Ahead(d, e, extra)
    ensures Agree(d.(trace := d.trace + extra), e)
  {
  }

  /** One original step is Cost instrumented steps. */
  lemma StepSimulated(env: Env, cx: Context, p: Program, c: Config, e: Config)
    requires WellFormedProgram(p) && Matches(cx, p, c, e) && c.place.At?
    ensures Matches(cx, p, ObservedStep(env, cx, p, c), Steps(env, InstrumentAll(cx, p), e, Cost(cx, p, c.place)))
  {
    var q := InstrumentAll(cx, p);
    if Fetches(p, c.place) {
      var b, k := c.place.block, c.place.index;
      var s, o := p[b][k..], Offset(cx, p[b], k);
      OffsetFits(cx, p[b], k);
      assert s[0] == p[b][k];
      if Transfers(s[0].op) {
        ExpandedTransfers(env, cx, q, b, o, s, c.data, e.data);
        ExtraIsTrace(Transfer(env, s[0], c.data).data, Steps(env, q, e, Cost(cx, p, c.place)).data,
            Observe(cx.func, s[0], c.data));
      } else {
        ExpandedFallsThrough(env, cx, q, b, o, s, c.data, e.data);
        ExtraIsTrace(Straight(env, s[0], c.data), Steps(env, q, e, Cost(cx, p, c.place)).data,
            Observe(cx.func, s[0], c.data));
      }
    } else {
      if c.place.block < |p| {
        OffsetEnd(cx, p[c.place.block]);
      }
      assert Step(env, q, e) == e.(place := Stuck);
      assert Steps(env, q, e, 1) == Step(env, q, e);
    }
  }

  /** The number of instrumented steps for n original ones. */
  function CostOf(env: Env, cx: Context, p: Program, c: Config, n: nat): nat
    decreases n
  {
    if n == 0 || !c.place.At? then 0
    else Cost(cx, p, c.place) + CostOf(env, cx, p, ObservedStep(env, cx, p, c), n - 1)
  }

  lemma {:induction false} RunSimulated(env: Env, cx: Context, p: Program, c: Config, e: Config, n: nat)
    requires WellFormedProgram(p) && Matches(cx, p, c, e)
    ensures Matches(cx, p, ObservedSteps(env, cx, p, c, n),
            Steps(env, InstrumentAll(cx, p), e, CostOf(env, cx, p, c, n)))
    decreases n
  {
    var q := InstrumentAll(cx, p);
    hide Matches, Cost, ObservedStep, Step, WellFormedProgram, InstrumentAll;
    if n == 0 {
    } else if c.place.At? {
      var c', k := ObservedStep(env, cx, p, c), Cost(cx, p, c.place);
      StepSimulated(env, cx, p, c, e);
      var e' := Steps(env, q, e, k);
      RunSimulated(env, cx, p, c', e', n - 1);
      StepsAdd(env, q, e, k, CostOf(env, cx, p, c', n - 1));
      assert CostOf(env, cx, p, c, n) == k + CostOf(env, cx, p, c', n - 1);
    } else {
      ObservedAtEnd(env, cx, p, c, n);
    }
  }

  lemma {:induction false} ObservedAtEnd(env: Env, cx: Context, p: Program, c: Config, n: nat)
    requires !c.place.At?
    ensures ObservedSteps(env, cx, p, c, n) == c && CostOf(env, cx, p, c, n) == 0
    decreases n
  {
    if n > 0 {
      assert ObservedStep(env, cx, p, c) == c;
      ObservedAtEnd(env, cx, p, c, n - 1);
    }
  }

  lemma {:induction false} CostIsEnough(env: Env, cx: Context, p: Program, c: Config, n: nat)
    requires ObservedSteps(env, cx, p, c, n).place.At?
    ensures CostOf(env, cx, p, c, n) >= n
    decreases n
  {
    if n > 0 {
      if !c.place.At? {
        ObservedAtEnd(env, cx, p, c, n);
      }
      CostIsEnough(env, cx, p, ObservedStep(env, cx, p, c), n - 1);
    }
  }

  /** The pass preserves meaning.  Start the original and the instrumented program in the same block
      with the same memory and values.  After any number n of original steps, the instrumented
      program reaches, after at least as many steps of its own, a configuration at the image of the
      same place with the same memory and the same original values, whose trace is exactly what the
      tracer promises to record for the instructions executed. */
  lemma PassPreservesMeaning(env: Env, cx: Context, p: Program, d: Data, b: Label, n: nat)
    requires WellFormedProgram(p) && b < |p|
    ensures var start := Config(d, At(b, 0));
            Matches(cx, p, ObservedSteps(env, cx, p, start, n),
                    Steps(env, InstrumentAll(cx, p), start, CostOf(env, cx, p, start, n)))
    ensures var start := Config(d, At(b, 0));
            ObservedSteps(env, cx, p, start, n).place.At? ==> CostOf(env, cx, p, start, n) >= n
  {
    var start := Config(d, At(b, 0));
    RunSimulated(env, cx, p, start, start, n);
    if ObservedSteps(env, cx, p, start, n).place.At? {
      CostIsEnough(env, cx, p, start, n);
    }
  }

  /** The instrumented program ends exactly if the original does, in the same way. */
  lemma SameEnding(env: Env, cx: Context, p: Program, d: Data, b: Label, ending: Place)
    requires WellFormedProgram(p) && b < |p| && !ending.At?
    ensures var start := Config(d, At(b, 0));
            (exists n :: ObservedSteps(env, cx, p, start, n).place == ending)
            <==> (exists m :: Steps(env, InstrumentAll(cx, p), start, m).place == ending)
  {
    var start, q := Config(d, At(b, 0)), InstrumentAll(cx, p);
    if n :| ObservedSteps(env, cx, p, start, n).place == ending {
      RunSimulated(env, cx, p, start, start, n);
      assert Steps(env, q, start, CostOf(env, cx, p, start, n)).place == ending;
    }
    if m :| Steps(env, q, start, m).place == ending {
      InstrumentedEndIsOriginalEnd(env, cx, p, start, m, ending);
    }
  }

  lemma InstrumentedEndIsOriginalEnd(env: Env, cx: Context, p: Program, start: Config, m: nat, ending: Place)
    requires WellFormedProgram(p) && Matches(cx, p, start, start) && !ending.At?
    requires Steps(env, InstrumentAll(cx, p), start, m).place == ending
    ensures ObservedSteps(env, cx, p, start, m).place == ending
  {
    var q, k, c := InstrumentAll(cx, p), CostOf(env, cx, p, start, m), ObservedSteps(env, cx, p, start, m);
    RunSimulated(env, cx, p, start, start, m);
    MatchingPlaces(cx, p, c, Steps(env, q, start, k));
    if k >= m {
      EndStays(env, q, start, m, k);
    } else {
      if c.place.At? {
        CostIsEnough(env, cx, p, start, m);
      }
      EndStays(env, q, start, k, m);
    }
  }

  lemma MatchingPlaces(cx: Context, p: Program, c: Config, e: Config)
    requires Matches(cx, p, c, e)
    ensures c.place.At? <==> e.place.At?
    ensures !c.place.At? ==> e.place == c.place
  {
  }

  lemma EndStays(env: Env, q: Program, c: Config, m: nat, n: nat)
    requires m <= n && !Steps(env, q, c, m).place.At?
    ensures Steps(env, q, c, n) == Steps(env, q, c, m)
  {
    StepsAdd(env, q, c, m, n - m);
    StepsAtEnd(env, q, Steps(env, q, c, m), n - m);
  }

  // ----- the names in the trace

  lemma NameIsOperation(op: LockOp)
    ensures LockName(op) in OPERATIONS && "store" in OPERATIONS && "load" in OPERATIONS
  {
    assert OPERATIONS[0] == "store" && OPERATIONS[1] == "load" && OPERATIONS[2] == "lock" && OPERATIONS[3] == "unlock";
    assert OPERATIONS[4] == "rwlock read lock" && OPERATIONS[5] == "rwlock read unlock";
    assert OPERATIONS[6] == "rwlock write lock" && OPERATIONS[7] == "rwlock write unlock";
  }

  /** The record is by function func and of one of the pass's operations. */
  predicate Named(func: string, r: Record) { r.func == func && r.name in OPERATIONS }

  ghost predicate AllNamed(func: string, trace: seq<Record>) { forall r :: r in trace ==> Named(func, r) }

  lemma ObserveNamed(func: string, i: Instr, d: Data)
    ensures AllNamed(func, Observe(func, i, d))
  {
    NameIsOperation(if i.op.Invoke? && i.op.callee.Recognised? then i.op.callee.op else MutexLock);
    hide OPERATIONS;
  }

  lemma StepNamed(env: Env, cx: Context, p: Program, c: Config)
    requires WellFormedProgram(p) && AllNamed(cx.func, c.data.trace)
    ensures AllNamed(cx.func, ObservedStep(env, cx, p, c).data.trace)
  {
    if Fetches(p, c.place) {
      var i := p[c.place.block][c.place.index];
      ObserveNamed(cx.func, i, c.data);
      assert WellFormed(i);
      hide Observe, OPERATIONS;
    }
  }

  lemma {:induction false} ObservedNamed(env: Env, cx: Context, p: Program, c: Config, n: nat)
    requires WellFormedProgram(p) && AllNamed(cx.func, c.data.trace)
    ensures AllNamed(cx.func, ObservedSteps(env, cx, p, c, n).data.trace)
    decreases n
  {
    hide WellFormedProgram, AllNamed, ObservedStep;
    if n > 0 {
      StepNamed(env, cx, p, c);
      ObservedNamed(env, cx, p, ObservedStep(env, cx, p, c), n - 1);
    }
  }

  /** Whatever an instrumented function hands to the logger carries the function's name and one of the
      eight operation names. */
  lemma TraceIsNamed(env: Env, cx: Context, p: Program, d: Data, b: Label, n: nat)
    requires WellFormedProgram(p) && b < |p| && d.trace == []
    ensures var start := Config(d, At(b, 0));
            AllNamed(cx.func, Steps(env, InstrumentAll(cx, p), start, CostOf(env, cx, p, start, n)).data.trace)
  {
    var start := Config(d, At(b, 0));
    PassPreservesMeaning(env, cx, p, d, b, n);
    ObservedNamed(env, cx, p, start, n);
    assert Agree(ObservedSteps(env, cx, p, start, n).data,
                 Steps(env, InstrumentAll(cx, p), start, CostOf(env, cx, p, start, n)).data);
  }
}
