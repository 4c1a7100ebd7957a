/** The instrumented program among other threads: they may change the memory before every one of its
    steps.  It still does what the original does under the same changes, and traces exactly what it
    should, as long as the guards whose first word an unlock probe reads are its own. */
module TracerRely {
  import opened Common
  import opened TracerIR
  import opened TracerPass
  import opened TracerMeaning

  type Memory = map<Value, Value>

  /** What the other threads do to the memory before step n. */
  type Others = (nat, Memory) -> Memory

  function Touch(others: Others, n: nat, d: Data): Data {
    d.(mem := others(n, d.mem))
  }

  /** What they do before k steps from step n on. */
  function TouchFor(others: Others, n: nat, k: nat, mem: Memory): Memory
    decreases k
  {
    if k == 0 then mem else TouchFor(others, n + 1, k - 1, others(n, mem))
  }

  lemma {:induction false} TouchForAdd(others: Others, n: nat, j: nat, k: nat, mem: Memory)
    ensures TouchFor(others, n, j + k, mem) == TouchFor(others, n + j, k, TouchFor(others, n, j, mem))
    decreases j
  {
    if j > 0 {
      TouchForAdd(others, n + 1, j - 1, k, others(n, mem));
    }
  }

  /** The other threads leave the private addresses alone. */
  ghost predicate Respects(others: Others, own: iset<Value>) {
    forall n: nat, mem: Memory, a: Value :: a in own ==> Read(others(n, mem), a) == Read(mem, a)
  }

  lemma {:induction false} PrivateKept(others: Others, own: iset<Value>, n: nat, k: nat, mem: Memory, a: Value)
    requires Respects(others, own) && a in own
    ensures Read(TouchFor(others, n, k, mem), a) == Read(mem, a)
    decreases k
  {
    if k > 0 {
      PrivateKept(others, own, n + 1, k - 1, others(n, mem), a);
    }
  }

  /** m steps of a program, the first of them step n of the schedule. */
  function RelySteps(env: Env, p: Program, c: Config, others: Others, n: nat, m: nat): Config
    decreases m
  {
    if m == 0 then c
    else RelySteps(env, p, Step(env, p, c.(data := Touch(others, n, c.data))), others, n + 1, m - 1)
  }

  lemma {:induction false} RelyStepsAdd(env: Env, p: Program, c: Config, others: Others, n: nat, j: nat, k: nat)
    ensures RelySteps(env, p, c, others, n, j + k)
            == RelySteps(env, p, RelySteps(env, p, c, others, n, j), others, n + j, k)
    decreases j
  {
    hide Step;
    if j > 0 {
      RelyStepsAdd(env, p, Step(env, p, c.(data := Touch(others, n, c.data))), others, n + 1, j - 1, k);
    }
  }

  // ----- straight code among other threads

  function RelyStraight(env: Env, code: seq<Instr>, d: Data, others: Others, n: nat): Data {
    if code == [] then d
    else RelyStraight(env, code[1..], Straight(env, code[0], Touch(others, n, d)), others, n + 1)
  }

  lemma {:induction false} RelyStraightAppend(env: Env, xs: seq<Instr>, ys: seq<Instr>, d: Data, others: Others, n: nat)
    ensures RelyStraight(env, xs + ys, d, others, n)
            == RelyStraight(env, ys, RelyStraight(env, xs, d, others, n), others, n + |xs|)
  {
    hide Straight;
    if xs == [] {
      assert xs + ys == ys;
    } else {
      assert (xs + ys)[1..] == xs[1..] + ys && (xs + ys)[0] == xs[0];
      RelyStraightAppend(env, xs[1..], ys, Straight(env, xs[0], Touch(others, n, d)), others, n + 1);
    }
  }

  lemma {:induction false} RelyStepsStraight(env: Env, q: Program, b: nat, k: nat, code: seq<Instr>, d: Data,
                                             others: Others, n: nat)
    requires b < |q| && k + |code| <= |q[b]| && q[b][k..k + |code|] == code && StraightCode(code)
    ensures RelySteps(env, q, Config(d, At(b, k)), others, n, |code|)
            == Config(RelyStraight(env, code, d, others, n), At(b, k + |code|))
    decreases |code|
  {
    hide Straight;
    if code != [] {
      assert q[b][k] == code[0];
      assert q[b][k + 1..k + 1 + |code[1..]|] == code[1..];
      RelyStepsStraight(env, q, b, k + 1, code[1..], Straight(env, code[0], Touch(others, n, d)), others, n + 1);
    }
  }

  lemma RelyOne(env: Env, i: Instr, d: Data, others: Others, n: nat)
    ensures RelyStraight(env, [i], d, others, n) == Straight(env, i, Touch(others, n, d))
  {
    assert [i][1..] == [];
  }

  /** e is d with the memory mem, the records `extra` more, and helper values free. */
  ghost predicate Onward(d: Data, e: Data, mem: Memory, extra: seq<Record>) {
    && e.mem == mem && e.trace == d.trace + extra
    && forall id :: Get(e.regs, Own(id)) == Get(d.regs, Own(id))
  }

  lemma OnwardTrans(d: Data, e: Data, f: Data, m: Memory, m': Memory, xs: seq<Record>, ys: seq<Record>)
    requires Onward(d, e, m, xs) && Onward(e, f, m', ys)
    ensures Onward(d, f, m', xs + ys)
  {
    forall id ensures Get(f.regs, Own(id)) == Get(d.regs, Own(id)) {
      assert Get(f.regs, Own(id)) == Get(e.regs, Own(id));
    }
  }

  /** A helper instruction, which writes no memory and no original value. */
  predicate HelperOp(op: Op) { op.BitCast? || op.FieldZero? || op.Load? }

  lemma HelperStep(env: Env, i: Instr, d: Data, others: Others, n: nat)
    requires i.dst.Aux? && HelperOp(i.op)
    ensures Onward(d, RelyStraight(env, [i], d, others, n), others(n, d.mem), [])
    ensures var e := RelyStraight(env, [i], d, others, n);
            e.regs == d.regs[i.dst := match i.op case Load(ptr) => Read(others(n, d.mem), Eval(ptr, d))
                                      case BitCast(v) => Eval(v, d) case FieldZero(v) => Eval(v, d)]
  {
    RelyOne(env, i, d, others, n);
  }

  lemma RecordStep(env: Env, i: Instr, d: Data, others: Others, n: nat)
    requires i.op.Probe? || i.op.ProbeLock?
    ensures Onward(d, RelyStraight(env, [i], d, others, n), others(n, d.mem),
                   [Record(i.op.line, i.op.func, i.op.name, Eval(i.op.addr, d))])
  {
    RelyOne(env, i, d, others, n);
  }

  /** A probe, with its cast if one is needed, records its operand whatever the others do. */
  lemma RelyProbe(env: Env, cx: Context, id: nat, line: nat, name: string, v: Operand, dbg: Option<nat>, lock: bool,
                  e: Data, others: Others, n: nat)
    requires v != Register(Aux(id, 0))
    ensures var code := if lock then ProbeLockCode(cx, id, line, name, v, dbg)
            else ProbeCode(cx, id, line, name, v, dbg);
            && StraightCode(code)
            && Onward(e, RelyStraight(env, code, e, others, n), TouchFor(others, n, |code|, e.mem),
                      [Record(line, cx.func, name, Eval(v, e))])
  {
    var w := CastValue(cx, id, 0, v);
    var op := if lock then ProbeLock(line, cx.func, name, w) else Probe(line, cx.func, name, w);
    var cast, probe := Instr(Aux(id, 0), BitCast(v), dbg), Instr(Aux(id, 1), op, dbg);
    var record := [Record(line, cx.func, name, Eval(v, e))];
    var mem := others(n, e.mem);
    assert TouchFor(others, n, 1, e.mem) == mem && TouchFor(others, n, 2, e.mem) == others(n + 1, mem);
    if v in cx.castFree {
      assert [] + [probe] == [probe];
      RecordStep(env, probe, e, others, n);
    } else {
      var e1 := RelyStraight(env, [cast], e, others, n);
      HelperStep(env, cast, e, others, n);
      RecordStep(env, probe, e1, others, n + 1);
      RelyStraightAppend(env, [cast], [probe], e, others, n);
      OnwardTrans(e, e1, RelyStraight(env, [probe], e1, others, n + 1), mem, others(n + 1, mem), [], record);
      assert [] + record == record;
    }
  }

  /** The guard loads leave the first word of a private guard in the helper value. */
  lemma RelyFirstField(env: Env, id: nat, guard: Operand, dbg: Option<nat>, e: Data, others: Others, own: iset<Value>,
      n: nat)
    requires OwnOperand(guard) && Respects(others, own) && Eval(guard, e) in own
    ensures var code := FirstFieldCode(id, guard, dbg);
            && StraightCode(code)
            && var f := RelyStraight(env, code, e, others, n);
               && Onward(e, f, TouchFor(others, n, |code|, e.mem), [])
               && Eval(Register(Aux(id, 4)), f) == Read(e.mem, Eval(guard, e))
  {
    var code := FirstFieldCode(id, guard, dbg);
    var a, b, c := code[0], code[1], code[2];
    assert code == [a] + [b] + [c];
    var e1 := RelyStraight(env, [a], e, others, n);
    var e2 := RelyStraight(env, [b], e1, others, n + 1);
    var e3 := RelyStraight(env, [c], e2, others, n + 2);
    HelperStep(env, a, e, others, n);
    HelperStep(env, b, e1, others, n + 1);
    HelperStep(env, c, e2, others, n + 2);
    RelyStraightAppend(env, [a] + [b], [c], e, others, n);
    RelyStraightAppend(env, [a], [b], e, others, n);
    OnwardTrans(e, e1, e2, e1.mem, e2.mem, [], []);
    OnwardTrans(e, e2, e3, e2.mem, e3.mem, [] + [], []);
    OwnEval(guard, e, e1);
    TouchThree(others, n, e.mem);
    PrivateKept(others, own, n, 3, e.mem, Eval(guard, e));
  }

  lemma TouchThree(others: Others, n: nat, mem: Memory)
    ensures TouchFor(others, n, 3, mem) == others(n + 2, others(n + 1, others(n, mem)))
  {
    assert TouchFor(others, n, 3, mem) == TouchFor(others, n + 1, 2, others(n, mem));
    assert TouchFor(others, n + 1, 2, others(n, mem)) == TouchFor(others, n + 2, 1, others(n + 1, others(n, mem)));
  }

  // ----- the code before and after an instruction

  /** The guard of a recognised unlock, whose first word the probe reads, is private. */
  predicate ReadsGuard(i: Instr) {
    && i.dbg.Some? && i.op.Invoke? && i.op.callee.Recognised? && |i.op.args| > 0
    && (i.op.callee.op.MutexUnlock? || i.op.callee.op.ReadUnlock? || i.op.callee.op.WriteUnlock?)
  }

  ghost predicate GuardPrivate(i: Instr, d: Data, own: iset<Value>) {
    ReadsGuard(i) ==> Eval(i.op.args[0], d) in own
  }

  lemma RelyThenProbe(env: Env, cx: Context, code: seq<Instr>, id: nat, line: nat, name: string, v: Operand,
                      dbg: Option<nat>, e: Data, e1: Data, others: Others, n: nat)
    requires StraightCode(code) && e1 == RelyStraight(env, code, e, others, n) && v != Register(Aux(id, 0))
    requires Onward(e, e1, TouchFor(others, n, |code|, e.mem), [])
    ensures var all := code + ProbeLockCode(cx, id, line, name, v, dbg);
            && StraightCode(all)
            && Onward(e, RelyStraight(env, all, e, others, n), TouchFor(others, n, |all|, e.mem),
                      [Record(line, cx.func, name, Eval(v, e1))])
  {
    var probe, record := ProbeLockCode(cx, id, line, name, v, dbg), [Record(line, cx.func, name, Eval(v, e1))];
    RelyProbe(env, cx, id, line, name, v, dbg, true, e1, others, n + |code|);
    RelyStraightAppend(env, code, probe, e, others, n);
    TouchForAdd(others, n, |code|, |probe|, e.mem);
    hide ProbeLockCode;
    OnwardTrans(e, e1, RelyStraight(env, probe, e1, others, n + |code|), e1.mem,
                TouchFor(others, n + |code|, |probe|, e1.mem), [], record);
    assert [] + record == record;
  }

  lemma RelyInvoke(env: Env, cx: Context, id: nat, line: nat, op: LockOp, v: Operand, dbg: Option<nat>, e: Data,
                   others: Others, own: iset<Value>, n: nat)
    requires OwnOperand(v) && Respects(others, own)
    requires op.MutexUnlock? || op.ReadUnlock? || op.WriteUnlock? ==> Eval(v, e) in own
    ensures var code := InvokeCode(cx, id, line, op, v, dbg);
            && StraightCode(code)
            && Onward(e, RelyStraight(env, code, e, others, n), TouchFor(others, n, |code|, e.mem),
                      [Record(line, cx.func, LockName(op), LockAddress(op, Eval(v, e), e.mem))])
  {
    var name := LockName(op);
    match op {
      case ReadUnlock =>
        var load, r := Instr(Aux(id, 2), Load(v), dbg), Register(Aux(id, 2));
        var e1 := RelyStraight(env, [load], e, others, n);
        HelperStep(env, load, e, others, n);
        PrivateKept(others, own, n, 1, e.mem, Eval(v, e));
        assert TouchFor(others, n, 1, e.mem) == others(n, e.mem);
        RelyThenProbe(env, cx, [load], id, line, name, r, dbg, e, e1, others, n);
      case MutexUnlock => RelyUnlock(env, cx, id, line, name, v, dbg, e, others, own, n);
      case WriteUnlock => RelyUnlock(env, cx, id, line, name, v, dbg, e, others, own, n);
      case _ => RelyProbe(env, cx, id, line, name, v, dbg, true, e, others, n);
    }
  }

  lemma RelyUnlock(env: Env, cx: Context, id: nat, line: nat, name: string, v: Operand, dbg: Option<nat>, e: Data,
                   others: Others, own: iset<Value>, n: nat)
    requires OwnOperand(v) && Respects(others, own) && Eval(v, e) in own
    ensures var code := FirstFieldCode(id, v, dbg) + ProbeLockCode(cx, id, line, name, Register(Aux(id, 4)), dbg);
            && StraightCode(code)
            && Onward(e, RelyStraight(env, code, e, others, n), TouchFor(others, n, |code|, e.mem),
                      [Record(line, cx.func, name, Read(e.mem, Eval(v, e)))])
  {
    RelyFirstField(env, id, v, dbg, e, others, own, n);
    RelyThenProbe(env, cx, FirstFieldCode(id, v, dbg), id, line, name, Register(Aux(id, 4)), dbg, e,
                  RelyStraight(env, FirstFieldCode(id, v, dbg), e, others, n), others, n);
  }

  lemma RelyBefore(env: Env, cx: Context, i: Instr, e: Data, others: Others, own: iset<Value>, n: nat)
    requires WellFormed(i) && Respects(others, own) && GuardPrivate(i, e, own)
    ensures StraightCode(Before(cx, i))
    ensures Onward(e, RelyStraight(env, Before(cx, i), e, others, n), TouchFor(others, n, |Before(cx, i)|, e.mem),
                   if i.op.Load? then [] else Observe(cx.func, i, e))
  {
    if i.dbg.Some? && i.op.Store? {
      RelyProbe(env, cx, i.dst.id, i.dbg.value, "store", i.op.ptr, i.dbg, false, e, others, n);
    } else if i.dbg.Some? && i.op.Invoke? && i.op.callee.Recognised? && LockArg(i.op.callee.op) < |i.op.args| {
      ObserveLockArg(i.dbg.value, cx.func, i.op.callee.op, i.op.args, e);
      hide ObserveLock;
      RelyInvoke(env, cx, i.dst.id, i.dbg.value, i.op.callee.op, i.op.args[LockArg(i.op.callee.op)], i.dbg, e, others,
          own, n);
    } else {
      assert Before(cx, i) == [] && (i.op.Load? || Observe(cx.func, i, e) == []);
    }
  }

  /** What an unlock probe promises to record does not depend on when it looks, if the guard is private. */
  lemma ObserveStable(func: string, i: Instr, d: Data, others: Others, own: iset<Value>, n: nat, k: nat)
    requires Respects(others, own) && GuardPrivate(i, d, own)
    ensures Observe(func, i, d.(mem := TouchFor(others, n, k, d.mem))) == Observe(func, i, d)
  {
    var d' := d.(mem := TouchFor(others, n, k, d.mem));
    if ReadsGuard(i) {
      var a := Eval(i.op.args[0], d);
      PrivateKept(others, own, n, k, d.mem, a);
    }
  }

  lemma RelyFollowing(env: Env, cx: Context, i: Instr, next: Option<nat>, d: Data, e: Data, extra: seq<Record>,
                      others: Others, n: nat)
    requires WellFormed(i) && !Transfers(i.op) && Ahead(Straight(env, i, d), e, extra)
    ensures var code := Following(cx, i, next);
            && StraightCode(code)
            && Onward(e, RelyStraight(env, code, e, others, n), TouchFor(others, n, |code|, e.mem),
                      if i.op.Load? then Observe(cx.func, i, d) else [])
  {
    if i.op.Load? && i.dbg.Some? {
      var ptr, d' := i.op.ptr, Straight(env, i, d);
      RelyProbe(env, cx, i.dst.id, i.dbg.value, "load", ptr, next, false, e, others, n);
      OwnEval(ptr, d', e);
      assert Eval(ptr, d') == Eval(ptr, d);
    } else {
      assert Following(cx, i, next) == [];
    }
  }

  // ----- simulation

  /** A step of the original among the same threads, whose first change is number n of the schedule; it
      writes down what the tracer promises to record.  The changes that happen while the instrumented
      program executes what was inserted happen directly before or after the original instruction. */
  function RelyObserved(env: Env, cx: Context, p: Program, c: Config, others: Others, n: nat): Config {
    if Fetches(p, c.place) then
      var s := p[c.place.block][c.place.index..];
      var j, k := |Before(cx, s[0])|, |Following(cx, s[0], NextDbg(s))|;
      var d := c.data.(mem := TouchFor(others, n, j + 1, c.data.mem));
      var c' := Step(env, p, c.(data := d));
      c'.(data := c'.data.(mem := TouchFor(others, n + j + 1, k, c'.data.mem),
                           trace := c'.data.trace + Observe(cx.func, s[0], d)))
    else Step(env, p, c.(data := Touch(others, n, c.data)))
  }

  lemma ExpandLength(cx: Context, s: seq<Instr>)
    requires s != []
    ensures |Expand(cx, s)| == |Before(cx, s[0])| + 1 + |Following(cx, s[0], NextDbg(s))|
    ensures Expand(cx, s) == Before(cx, s[0]) + ([s[0]] + Following(cx, s[0], NextDbg(s)))
  {
  }

  /** The inserted code before an instruction and the instruction's own view of the memory. */
  lemma RelyArrives(env: Env, cx: Context, i: Instr, d: Data, e: Data, others: Others, own: iset<Value>, n: nat)
      returns (e1: Data, extra: seq<Record>)
    requires WellFormed(i) && Agree(d, e) && Respects(others, own) && GuardPrivate(i, d, own)
    ensures StraightCode(Before(cx, i)) && e1 == RelyStraight(env, Before(cx, i), e, others, n)
    ensures var j := |Before(cx, i)|;
            var d1 := d.(mem := TouchFor(others, n, j + 1, d.mem));
            && Ahead(d1, Touch(others, n + j, e1), extra)
            && extra == if i.op.Load? then [] else Observe(cx.func, i, d1)
  {
    var j := |Before(cx, i)|;
    ObserveAgrees(cx.func, i, d, e);
    GuardAgrees(i, d, e, own);
    RelyBefore(env, cx, i, e, others, own, n);
    e1, extra := RelyStraight(env, Before(cx, i), e, others, n), if i.op.Load? then [] else Observe(cx.func, i, d);
    ObserveStable(cx.func, i, d, others, own, n, j + 1);
    TouchForAdd(others, n, j, 1, d.mem);
    assert TouchFor(others, n + j, 1, e1.mem) == others(n + j, e1.mem);
    hide Before, Observe;
    forall id ensures Get(e1.regs, Own(id)) == Get(d.regs, Own(id)) {
      assert Get(e1.regs, Own(id)) == Get(e.regs, Own(id));
    }
  }

  lemma GuardAgrees(i: Instr, d: Data, e: Data, own: iset<Value>)
    requires WellFormed(i) && Agree(d, e) && GuardPrivate(i, d, own)
    ensures GuardPrivate(i, e, own)
  {
    if ReadsGuard(i) {
      OwnEval(i.op.args[0], d, e);
    }
  }

  /** Executing an expanded instruction that falls through, among other threads. */
  lemma RelyFallsThrough(env: Env, cx: Context, q: Program, b: nat, o: nat, s: seq<Instr>, d: Data, e: Data,
                         others: Others, own: iset<Value>, n: nat)
    requires s != [] && WellFormed(s[0]) && !Transfers(s[0].op) && Agree(d, e)
    requires Respects(others, own) && GuardPrivate(s[0], d, own)
    requires b < |q| && o + |Expand(cx, s)| <= |q[b]| && q[b][o..o + |Expand(cx, s)|] == Expand(cx, s)
    ensures var j, k := |Before(cx, s[0])|, |Following(cx, s[0], NextDbg(s))|;
            var d1 := d.(mem := TouchFor(others, n, j + 1, d.mem));
            var d2 := Straight(env, s[0], d1);
            var c := RelySteps(env, q, Config(e, At(b, o)), others, n, |Expand(cx, s)|);
            && c.place == At(b, o + |Expand(cx, s)|)
            && Ahead(d2.(mem := TouchFor(others, n + j + 1, k, d2.mem)), c.data, Observe(cx.func, s[0], d1))
  {
    hide Before, Following, Observe, Expand, Straight, RelySteps, RelyStraight, TouchFor;
    var i, pre, post := s[0], Before(cx, s[0]), Following(cx, s[0], NextDbg(s));
    var d1 := d.(mem := TouchFor(others, n, |pre| + 1, d.mem));
    var e1, extra := RelyArrives(env, cx, i, d, e, others, own, n);
    var e2 := Straight(env, i, Touch(others, n + |pre|, e1));
    SameEffect(env, i, d1, Touch(others, n + |pre|, e1), extra);
    RelyFollowing(env, cx, i, NextDbg(s), d1, e2, extra, others, n + |pre| + 1);
    ExpandLength(cx, s);
    RelyRunsThrough(env, q, b, o, pre, i, post, e, others, n);
    JoinTraces(Straight(env, i, d1), e2, RelyStraight(env, post, e2, others, n + |pre| + 1),
               TouchFor(others, n + |pre| + 1, |post|, e2.mem), extra, if i.op.Load? then Observe(cx.func, i, d1)
                   else []);
    assert extra + (if i.op.Load? then Observe(cx.func, i, d1) else []) == Observe(cx.func, i, d1);
  }

  lemma JoinTraces(d: Data, e: Data, f: Data, mem: Memory, xs: seq<Record>, ys: seq<Record>)
    requires Ahead(d, e, xs) && Onward(e, f, mem, ys)
    ensures Ahead(d.(mem := mem), f, xs + ys)
  {
    forall id ensures Get(f.regs, Own(id)) == Get(d.regs, Own(id)) {
      assert Get(f.regs, Own(id)) == Get(e.regs, Own(id));
    }
  }

  /** Executing an expanded instruction that ends its block, among other threads. */
  lemma RelyTransfers(env: Env, cx: Context, q: Program, b: nat, o: nat, s: seq<Instr>, d: Data, e: Data,
                      others: Others, own: iset<Value>, n: nat)
    requires s != [] && WellFormed(s[0]) && Transfers(s[0].op) && Agree(d, e)
    requires Respects(others, own) && GuardPrivate(s[0], d, own)
    requires b < |q| && o + |Expand(cx, s)| <= |q[b]| && q[b][o..o + |Expand(cx, s)|] == Expand(cx, s)
    ensures Following(cx, s[0], NextDbg(s)) == []
    ensures var d1 := d.(mem := TouchFor(others, n, |Before(cx, s[0])| + 1, d.mem));
            var c := RelySteps(env, q, Config(e, At(b, o)), others, n, |Expand(cx, s)|);
            && c.place == Transfer(env, s[0], d1).place
            && Ahead(Transfer(env, s[0], d1).data, c.data, Observe(cx.func, s[0], d1))
  {
    var i, pre := s[0], Before(cx, s[0]);
    var d1 := d.(mem := TouchFor(others, n, |pre| + 1, d.mem));
    var e1, extra := RelyArrives(env, cx, i, d, e, others, own, n);
    assert Expand(cx, s) == pre + [i];
    assert !i.op.Load?;
    hide Before, Following, Observe, Expand, Transfer, RelySteps, RelyStraight, TouchFor;
    SameTransfer(env, i, d1, Touch(others, n + |pre|, e1), extra);
    RelyRunsTransfer(env, q, b, o, pre, i, e, others, n);
  }

  /** Executing straight code and then an instruction that ends the block. */
  lemma RelyRunsTransfer(env: Env, q: Program, b: nat, o: nat, pre: seq<Instr>, i: Instr, e: Data, others: Others,
      n: nat)
    requires StraightCode(pre) && Transfers(i.op)
    requires b < |q| && o + |pre| < |q[b]| && q[b][o..o + |pre| + 1] == pre + [i]
    ensures RelySteps(env, q, Config(e, At(b, o)), others, n, |pre| + 1)
            == Transfer(env, i, Touch(others, n + |pre|, RelyStraight(env, pre, e, others, n)))
  {
    hide Transfer, RelyStraight, RelySteps;
    SliceParts(q[b], o, pre, i);
    RelyStepsStraight(env, q, b, o, pre, e, others, n);
    RelyStepsAdd(env, q, Config(e, At(b, o)), others, n, |pre|, 1);
    RelyTransferStep(env, q, b, o + |pre|, i, RelyStraight(env, pre, e, others, n), others, n + |pre|);
  }

  /** Executing straight code around an instruction that falls through. */
  lemma RelyRunsThrough(env: Env, q: Program, b: nat, o: nat, pre: seq<Instr>, i: Instr, post: seq<Instr>, e: Data,
                        others: Others, n: nat)
    requires StraightCode(pre) && StraightCode(post) && !Transfers(i.op) && b < |q|
    requires var code := pre + ([i] + post); o + |code| <= |q[b]| && q[b][o..o + |code|] == code
    ensures var e1 := RelyStraight(env, pre, e, others, n);
            var e2 := Straight(env, i, Touch(others, n + |pre|, e1));
            RelySteps(env, q, Config(e, At(b, o)), others, n, |pre| + 1 + |post|)
            == Config(RelyStraight(env, post, e2, others, n + |pre| + 1), At(b, o + |pre| + 1 + |post|))
  {
    var code := pre + ([i] + post);
    assert StraightCode(code) && |code| == |pre| + 1 + |post|;
    hide Straight, RelySteps, RelyStraight;
    var e1 := RelyStraight(env, pre, e, others, n);
    RelyStraightAppend(env, pre, [i] + post, e, others, n);
    RelyStraightAppend(env, [i], post, e1, others, n + |pre|);
    RelyOne(env, i, e1, others, n + |pre|);
    RelyStepsStraight(env, q, b, o, code, e, others, n);
  }

  lemma RelyTransferStep(env: Env, q: Program, b: nat, k: nat, i: Instr, e: Data, others: Others, n: nat)
    requires b < |q| && k < |q[b]| && q[b][k] == i && Transfers(i.op)
    ensures RelySteps(env, q, Config(e, At(b, k)), others, n, 1) == Transfer(env, i, Touch(others, n, e))
  {
    hide Transfer;
    assert RelySteps(env, q, Config(e, At(b, k)), others, n, 1) == Step(env, q, Config(Touch(others, n, e), At(b, k)));
  }

  /** The guards of the unlocks that the original executes are private, for m steps from step n on. */
  ghost predicate GuardsPrivate(env: Env, cx: Context, p: Program, c: Config, others: Others, own: iset<Value>,
      n: nat, m: nat)
    decreases m
  {
    m == 0 || !c.place.At?
    || ((Fetches(p, c.place) ==> GuardPrivate(p[c.place.block][c.place.index], c.data, own))
        && GuardsPrivate(env, cx, p, RelyObserved(env, cx, p, c, others, n), others, own, n + Cost(cx, p, c.place),
            m - 1))
  }

  /** One original step is Cost instrumented steps, also among other threads. */
  lemma RelyStepSimulated(env: Env, cx: Context, p: Program, c: Config, e: Config, others: Others, own: iset<Value>,
      n: nat)
    requires WellFormedProgram(p) && Matches(cx, p, c, e) && c.place.At? && Respects(others, own)
    requires Fetches(p, c.place) ==> GuardPrivate(p[c.place.block][c.place.index], c.data, own)
    ensures Matches(cx, p, RelyObserved(env, cx, p, c, others, n),
                    RelySteps(env, InstrumentAll(cx, p), e, others, n, Cost(cx, p, c.place)))
  {
    var q := InstrumentAll(cx, p);
    if Fetches(p, c.place) {
      var b, k := c.place.block, c.place.index;
      var s, o := p[b][k..], Offset(cx, p[b], k);
      OffsetFits(cx, p[b], k);
      assert s[0] == p[b][k];
      if Transfers(s[0].op) {
        RelyTransfers(env, cx, q, b, o, s, c.data, e.data, others, own, n);
        RelyLands(env, cx, p, c, e, others, n);
      } else {
        RelyFallsThrough(env, cx, q, b, o, s, c.data, e.data, others, own, n);
        RelyLands(env, cx, p, c, e, others, n);
      }
    } else {
      if c.place.block < |p| {
        OffsetEnd(cx, p[c.place.block]);
      }
      var e1 := e.(data := Touch(others, n, e.data));
      assert Step(env, q, e1) == e1.(place := Stuck);
      assert RelySteps(env, q, e, others, n, 1) == Step(env, q, e1);
    }
  }

  /** From what happens to the data and the place of one step to the simulation relation. */
  lemma RelyLands(env: Env, cx: Context, p: Program, c: Config, e: Config, others: Others, n: nat)
    requires Matches(cx, p, c, e) && Fetches(p, c.place)
    requires var b, x := c.place.block, c.place.index;
             var s, e' := p[b][x..], RelySteps(env, InstrumentAll(cx, p), e, others, n, Cost(cx, p, c.place));
             var j, k := |Before(cx, s[0])|, |Following(cx, s[0], NextDbg(s))|;
             var d1 := c.data.(mem := TouchFor(others, n, j + 1, c.data.mem));
             if Transfers(s[0].op) then
               k == 0 && e'.place == Transfer(env, s[0], d1).place
               && Ahead(Transfer(env, s[0], d1).data, e'.data, Observe(cx.func, s[0], d1))
             else
               var d2 := Straight(env, s[0], d1);
               e'.place == At(b, Offset(cx, p[b], x) + |Expand(cx, s)|)
               && Ahead(d2.(mem := TouchFor(others, n + j + 1, k, d2.mem)), e'.data, Observe(cx.func, s[0], d1))
    ensures Matches(cx, p, RelyObserved(env, cx, p, c, others, n),
                    RelySteps(env, InstrumentAll(cx, p), e, others, n, Cost(cx, p, c.place)))
  {
    var b, x := c.place.block, c.place.index;
    OffsetFits(cx, p[b], x);
    assert p[b][x..][0] == p[b][x];
    hide Before, Following, Observe, Expand, InstrumentAll, RelySteps, Cost, Straight;
  }

  // ----- over whole runs

  function RelyObservedSteps(env: Env, cx: Context, p: Program, c: Config, others: Others, n: nat, m: nat): Config
    decreases m
  {
    if m == 0 || !c.place.At? then c
    else RelyObservedSteps(env, cx, p, RelyObserved(env, cx, p, c, others, n), others, n + Cost(cx, p, c.place), m - 1)
  }

  /** The number of instrumented steps for m original ones. */
  function RelyCost(env: Env, cx: Context, p: Program, c: Config, others: Others, n: nat, m: nat): nat
    decreases m
  {
    if m == 0 || !c.place.At? then 0
    else Cost(cx, p, c.place)
         + RelyCost(env, cx, p, RelyObserved(env, cx, p, c, others, n), others, n + Cost(cx, p, c.place), m - 1)
  }

  lemma {:induction false} RelyRunSimulated(env: Env, cx: Context, p: Program, c: Config, e: Config, others: Others,
                                            own: iset<Value>, n: nat, m: nat)
    requires WellFormedProgram(p) && Matches(cx, p, c, e) && Respects(others, own)
    requires GuardsPrivate(env, cx, p, c, others, own, n, m)
    ensures Matches(cx, p, RelyObservedSteps(env, cx, p, c, others, n, m),
                    RelySteps(env, InstrumentAll(cx, p), e, others, n, RelyCost(env, cx, p, c, others, n, m)))
    decreases m
  {
    var q := InstrumentAll(cx, p);
    hide Matches, Cost, RelyObserved, Step, WellFormedProgram, InstrumentAll, Respects;
    if m > 0 && c.place.At? {
      var c', k := RelyObserved(env, cx, p, c, others, n), Cost(cx, p, c.place);
      var rest := RelyCost(env, cx, p, c', others, n + k, m - 1);
      RelyStepSimulated(env, cx, p, c, e, others, own, n);
      var e' := RelySteps(env, q, e, others, n, k);
      RelyRunSimulated(env, cx, p, c', e', others, own, n + k, m - 1);
      RelyStepsAdd(env, q, e, others, n, k, rest);
      assert RelyCost(env, cx, p, c, others, n, m) == k + rest;
    }
  }

  /** The pass preserves meaning among other threads.  Whatever they do to the memory before any of its
      steps, as long as they leave the guards alone whose locks it releases, the instrumented program is
      after its steps for m original ones where the original is when the same changes happen between its
      steps: same memory, same original values, image of the same place, and a trace that is exactly
      what the tracer promises to record for the instructions executed. */
  lemma PassPreservesMeaningAmongThreads(env: Env, cx: Context, p: Program, d: Data, b: Label, others: Others,
                                         own: iset<Value>, m: nat)
    requires WellFormedProgram(p) && b < |p| && Respects(others, own)
    requires GuardsPrivate(env, cx, p, Config(d, At(b, 0)), others, own, 0, m)
    ensures var start := Config(d, At(b, 0));
            Matches(cx, p, RelyObservedSteps(env, cx, p, start, others, 0, m),
                    RelySteps(env, InstrumentAll(cx, p), start, others, 0, RelyCost(env, cx, p, start, others, 0, m)))
  {
    var start := Config(d, At(b, 0));
    RelyRunSimulated(env, cx, p, start, start, others, own, 0, m);
  }
}
