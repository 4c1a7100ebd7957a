/** What stands in the trace of an instrumented program, said of the program alone: which record every
    instruction leaves, and that a lock call and the unlock through the guard it made name the same lock. */
module TracerLocks {
  import opened Common
  import opened TracerIR
  import opened TracerPass
  import opened TracerMeaning
  import opened TracerRely

  // ----- the record of one instruction

  function Current(p: Program, c: Config): Instr
    requires Fetches(p, c.place)
  {
    p[c.place.block][c.place.index]
  }

  lemma StepTrace(env: Env, cx: Context, p: Program, c: Config)
    requires WellFormedProgram(p)
    ensures c.data.trace <= ObservedStep(env, cx, p, c).data.trace
    ensures ObservedStep(env, cx, p, c).data.trace ==
            if Fetches(p, c.place) then c.data.trace + Observe(cx.func, Current(p, c), c.data) else c.data.trace
  {
    if Fetches(p, c.place) {
      assert WellFormed(Current(p, c));
      hide Observe;
    }
  }

  lemma {:induction false} ObservedLast(env: Env, cx: Context, p: Program, c: Config, n: nat)
    ensures ObservedSteps(env, cx, p, c, n + 1) == ObservedStep(env, cx, p, ObservedSteps(env, cx, p, c, n))
    decreases n
  {
    hide ObservedStep;
    if n == 0 {
      assert ObservedSteps(env, cx, p, ObservedStep(env, cx, p, c), 0) == ObservedStep(env, cx, p, c);
    } else {
      ObservedLast(env, cx, p, ObservedStep(env, cx, p, c), n - 1);
    }
  }

  lemma {:induction false} TraceGrows(env: Env, cx: Context, p: Program, c: Config, i: nat, j: nat)
    requires WellFormedProgram(p) && i <= j
    ensures ObservedSteps(env, cx, p, c, i).data.trace <= ObservedSteps(env, cx, p, c, j).data.trace
    decreases j
  {
    hide WellFormedProgram, ObservedStep, ObservedSteps;
    if i < j {
      TraceGrows(env, cx, p, c, i, j - 1);
      ObservedLast(env, cx, p, c, j - 1);
      StepTrace(env, cx, p, ObservedSteps(env, cx, p, c, j - 1));
    }
  }

  /** The trace of the instrumented program when the original has done n steps. */
  function TraceAt(env: Env, cx: Context, p: Program, start: Config, n: nat): seq<Record> {
    Steps(env, InstrumentAll(cx, p), start, CostOf(env, cx, p, start, n)).data.trace
  }

  lemma TraceIsObserved(env: Env, cx: Context, p: Program, d: Data, b: Label, n: nat)
    requires WellFormedProgram(p) && b < |p|
    ensures var start := Config(d, At(b, 0));
            TraceAt(env, cx, p, start, n) == ObservedSteps(env, cx, p, start, n).data.trace
  {
    PassPreservesMeaning(env, cx, p, d, b, n);
  }

  /** While the original executes its next instruction, the instrumented program adds to its trace the
      record that is promised for that instruction, and nothing else. */
  lemma RecordOfStep(env: Env, cx: Context, p: Program, d: Data, b: Label, n: nat)
    requires WellFormedProgram(p) && b < |p|
    ensures var start := Config(d, At(b, 0));
            var c, t := ObservedSteps(env, cx, p, start, n), TraceAt(env, cx, p, start, n);
            if Fetches(p, c.place) then
              TraceAt(env, cx, p, start, n + 1) == t + Observe(cx.func, Current(p, c), c.data)
            else TraceAt(env, cx, p, start, n + 1) == t
  {
    var start := Config(d, At(b, 0));
    var c := ObservedSteps(env, cx, p, start, n);
    TraceIsObserved(env, cx, p, d, b, n);
    TraceIsObserved(env, cx, p, d, b, n + 1);
    ObservedLast(env, cx, p, start, n);
    StepTrace(env, cx, p, c);
    hide TraceAt, ObservedStep, ObservedSteps, Observe;
  }

  /** The record is of the access that i makes when it takes d to d': a store changes the memory where the
      record says, and a load gets what is there. */
  ghost predicate IsOf(r: Record, i: Instr, d: Data, d': Data) {
    match i.op
    case Store(val, _) => r.name == "store" && d'.mem == d.mem[r.addr := Eval(val, d)] && d'.regs == d.regs
    case Load(_) => r.name == "load" && d'.mem == d.mem && d'.regs == d.regs[i.dst := Read(d.mem, r.addr)]
    case _ => false
  }

  lemma AccessIsRecorded(env: Env, func: string, i: Instr, d: Data)
    requires i.dbg.Some? && (i.op.Store? || i.op.Load?)
    ensures var obs := Observe(func, i, d);
            |obs| == 1 && obs[0].line == i.dbg.value && obs[0].func == func && IsOf(obs[0], i, d, Straight(env, i, d))
  {
  }

  /** Every store and load with a debug location leaves one record, and the record says where it was. */
  lemma RecordIsOfAccess(env: Env, cx: Context, p: Program, d: Data, b: Label, n: nat)
    requires WellFormedProgram(p) && b < |p|
    requires var c := ObservedSteps(env, cx, p, Config(d, At(b, 0)), n);
             Fetches(p, c.place) && Current(p, c).dbg.Some? && (Current(p, c).op.Store? || Current(p, c).op.Load?)
    ensures var start := Config(d, At(b, 0));
            var c, c' := ObservedSteps(env, cx, p, start, n), ObservedSteps(env, cx, p, start, n + 1);
            var t, t' := TraceAt(env, cx, p, start, n), TraceAt(env, cx, p, start, n + 1);
            && |t'| == |t| + 1 && t <= t'
            && t'[|t|].line == Current(p, c).dbg.value && t'[|t|].func == cx.func
            && IsOf(t'[|t|], Current(p, c), c.data, c'.data)
  {
    var start := Config(d, At(b, 0));
    var c := ObservedSteps(env, cx, p, start, n);
    RecordOfStep(env, cx, p, d, b, n);
    ObservedLast(env, cx, p, start, n);
    AccessIsRecorded(env, cx.func, Current(p, c), c.data);
    hide TraceAt, ObservedSteps, Observe, WellFormedProgram;
  }

  // ----- the lock of a critical section

  /** The three ways to hold a lock. */
  datatype Kind = AsMutex | AsReader | AsWriter

  /** i takes a lock: mutex lock and rwlock write get a slot for their result and the lock, rwlock read
      gets the lock. */
  predicate Takes(kind: Kind, i: Instr) {
    && i.dbg.Some? && i.op.Invoke?
    && match kind
       case AsMutex => i.op.callee == Recognised(MutexLock) && |i.op.args| == 2
       case AsReader => i.op.callee == Recognised(ReadLock) && |i.op.args| == 1
       case AsWriter => i.op.callee == Recognised(WriteLock) && |i.op.args| == 2
  }

  /** i drops the guard that its argument points to. */
  predicate GivesBack(kind: Kind, i: Instr) {
    && i.dbg.Some? && i.op.Invoke? && |i.op.args| == 1
    && match kind
       case AsMutex => i.op.callee == Recognised(MutexUnlock)
       case AsReader => i.op.callee == Recognised(ReadUnlock)
       case AsWriter => i.op.callee == Recognised(WriteUnlock)
  }

  function TakeName(kind: Kind): string {
    match kind case AsMutex => "lock" case AsReader => "rwlock read lock" case AsWriter => "rwlock write lock"
  }

  function GiveName(kind: Kind): string {
    match kind case AsMutex => "unlock" case AsReader => "rwlock read unlock" case AsWriter => "rwlock write unlock"
  }

  /** What the locks of the standard library do, unless they panic.  The call that gets a slot and a lock
      leaves a guard in the slot, `offset` words in, whose first word is the lock; the call that gets the
      lock alone returns the first word of its guard. */
  ghost predicate Library(env: Env, offset: Value) {
    && (forall slot, lock, mem :: FillsSlot(env.ext(Recognised(MutexLock), [slot, lock], mem), slot + offset, lock))
    && (forall slot, lock, mem :: FillsSlot(env.ext(Recognised(WriteLock), [slot, lock], mem), slot + offset, lock))
    && (forall lock, mem ::
          var r := env.ext(Recognised(ReadLock), [lock], mem);
          !r.unwinds ==> r.ret == lock)
  }

  ghost predicate FillsSlot(r: ExtResult, guard: Value, lock: Value) {
    !r.unwinds ==> Read(r.mem, guard) == lock
  }

  /** i, executed in d, returns. */
  predicate Succeeds(env: Env, i: Instr, d: Data)
    requires i.op.Invoke?
  {
    !env.ext(i.op.callee, EvalAll(i.op.args, d), d.mem).unwinds
  }

  /** The first word of the guard that i, executed in d, makes. */
  function GuardWord(env: Env, kind: Kind, i: Instr, d: Data, offset: Value): Value
    requires Takes(kind, i)
  {
    var after := Transfer(env, i, d).data;
    if kind.AsReader? then Get(after.regs, i.dst) else Read(after.mem, Eval(i.op.args[0], d) + offset)
  }

  /** The lock that i, executed in d, acts on. */
  function LockOf(kind: Kind, i: Instr, d: Data): Value
    requires Takes(kind, i)
  {
    if kind.AsReader? then Eval(i.op.args[0], d) else Eval(i.op.args[1], d)
  }

  lemma GuardWordIsLock(env: Env, kind: Kind, i: Instr, d: Data, offset: Value)
    requires Library(env, offset) && Takes(kind, i) && Succeeds(env, i, d)
    ensures GuardWord(env, kind, i, d, offset) == LockOf(kind, i, d)
  {
    var vals := EvalAll(i.op.args, d);
    var r := env.ext(i.op.callee, vals, d.mem);
    if kind.AsReader? {
      assert vals == [vals[0]];
    } else {
      assert vals == [vals[0], vals[1]];
      assert FillsSlot(r, vals[0] + offset, vals[1]);
    }
  }

  /** A lock call and an unlock through a guard with the first word that the call gave it are recorded,
      under the names of their kind, with the lock the call acts on. */
  lemma PairedRecords(env: Env, func: string, kind: Kind, x: Instr, y: Instr, d: Data, e: Data, offset: Value)
    requires Library(env, offset) && Takes(kind, x) && GivesBack(kind, y) && Succeeds(env, x, d)
    requires Read(e.mem, Eval(y.op.args[0], e)) == GuardWord(env, kind, x, d, offset)
    ensures Observe(func, x, d) == [Record(x.dbg.value, func, TakeName(kind), LockOf(kind, x, d))]
    ensures Observe(func, y, e) == [Record(y.dbg.value, func, GiveName(kind), LockOf(kind, x, d))]
  {
    GuardWordIsLock(env, kind, x, d, offset);
    hide GuardWord, Library, Succeeds;
  }

  /** The two records stand in the trace, the one of the lock call first. */
  ghost predicate BothIn(trace: seq<Record>, k: nat, l: nat, func: string, kind: Kind, x: Instr, y: Instr, lock: Value)
  {
    && k < l < |trace| && x.dbg.Some? && y.dbg.Some?
    && trace[k] == Record(x.dbg.value, func, TakeName(kind), lock)
    && trace[l] == Record(y.dbg.value, func, GiveName(kind), lock)
  }

  /** In the trace of an instrumented program, if instruction i of the run is a lock call that returns, and
      instruction j drops a guard whose first word is still the one the call gave it, then the records of
      both are there, and both name the lock that the call acts on. */
  lemma LockAndUnlockAgree(env: Env, cx: Context, p: Program, d: Data, b: Label, kind: Kind, i: nat, j: nat,
                           offset: Value)
    requires WellFormedProgram(p) && b < |p| && Library(env, offset) && i < j
    requires var start := Config(d, At(b, 0));
             var c, e := ObservedSteps(env, cx, p, start, i), ObservedSteps(env, cx, p, start, j);
             && Fetches(p, c.place) && Fetches(p, e.place)
             && Takes(kind, Current(p, c)) && GivesBack(kind, Current(p, e)) && Succeeds(env, Current(p, c), c.data)
             && Read(e.data.mem, Eval(Current(p, e).op.args[0], e.data))
                == GuardWord(env, kind, Current(p, c), c.data, offset)
    ensures var start := Config(d, At(b, 0));
            var c, e := ObservedSteps(env, cx, p, start, i), ObservedSteps(env, cx, p, start, j);
            BothIn(TraceAt(env, cx, p, start, j + 1), |TraceAt(env, cx, p, start, i)|,
                   |TraceAt(env, cx, p, start, j)|, cx.func, kind, Current(p, c), Current(p, e),
                   LockOf(kind, Current(p, c), c.data))
  {
    hide Library, GuardWord, TraceAt, Observe, ObservedStep, ObservedSteps, WellFormedProgram, LockOf;
    var start := Config(d, At(b, 0));
    var c, e := ObservedSteps(env, cx, p, start, i), ObservedSteps(env, cx, p, start, j);
    PairedRecords(env, cx.func, kind, Current(p, c), Current(p, e), c.data, e.data, offset);
    TraceIsObserved(env, cx, p, d, b, i);
    TraceIsObserved(env, cx, p, d, b, j);
    TraceIsObserved(env, cx, p, d, b, j + 1);
    ObservedLast(env, cx, p, start, i);
    ObservedLast(env, cx, p, start, j);
    StepTrace(env, cx, p, c);
    StepTrace(env, cx, p, e);
    TraceGrows(env, cx, p, start, i + 1, j);
    var x, y := Current(p, c), Current(p, e);
    var lock := LockOf(kind, x, c.data);
    TwoRecords(c.data.trace, Record(x.dbg.value, cx.func, TakeName(kind), lock), e.data.trace,
               Record(y.dbg.value, cx.func, GiveName(kind), lock));
  }

  lemma TwoRecords<T>(s: seq<T>, x: T, t: seq<T>, y: T)
    requires s + [x] <= t
    ensures |s| < |t| && (t + [y])[|s|] == x && (t + [y])[|t|] == y
  {
    assert (s + [x])[|s|] == x;
  }

  // ----- the same among other threads

  /** The original after m steps among the threads `others`. */
  function Among(env: Env, cx: Context, p: Program, start: Config, others: Others, m: nat): Config {
    RelyObservedSteps(env, cx, p, start, others, 0, m)
  }

  /** The trace of the instrumented program then. */
  function TraceAmong(env: Env, cx: Context, p: Program, start: Config, others: Others, m: nat): seq<Record> {
    RelySteps(env, InstrumentAll(cx, p), start, others, 0, RelyCost(env, cx, p, start, others, 0, m)).data.trace
  }

  /** The number of steps of the schedule that have gone by then. */
  function Elapsed(env: Env, cx: Context, p: Program, start: Config, others: Others, m: nat): nat {
    RelyCost(env, cx, p, start, others, 0, m)
  }

  /** What the next instruction is executed in: the memory as the others have left it. */
  function Met(cx: Context, p: Program, c: Config, others: Others, n: nat): Data
    requires Fetches(p, c.place)
  {
    c.data.(mem := TouchFor(others, n, |Before(cx, Current(p, c))| + 1, c.data.mem))
  }

  lemma RelyStepTrace(env: Env, cx: Context, p: Program, c: Config, others: Others, n: nat)
    requires WellFormedProgram(p)
    ensures c.data.trace <= RelyObserved(env, cx, p, c, others, n).data.trace
    ensures RelyObserved(env, cx, p, c, others, n).data.trace ==
            if Fetches(p, c.place) then c.data.trace + Observe(cx.func, Current(p, c), Met(cx, p, c, others, n))
            else c.data.trace
  {
    if Fetches(p, c.place) {
      assert WellFormed(Current(p, c)) && p[c.place.block][c.place.index..][0] == Current(p, c);
      hide Observe, Before, Following, TouchFor;
    }
  }

  lemma {:induction false} RelyLast(env: Env, cx: Context, p: Program, c: Config, others: Others, n: nat, m: nat)
    ensures var c' := RelyObservedSteps(env, cx, p, c, others, n, m);
            RelyObservedSteps(env, cx, p, c, others, n, m + 1)
            == if c'.place.At? then RelyObserved(env, cx, p, c', others, n + RelyCost(env, cx, p, c, others, n, m))
               else c'
    decreases m
  {
    hide RelyObserved, Cost;
    if c.place.At? {
      var next, k := RelyObserved(env, cx, p, c, others, n), Cost(cx, p, c.place);
      if m == 0 {
        assert RelyObservedSteps(env, cx, p, next, others, n + k, 0) == next;
      } else {
        RelyLast(env, cx, p, next, others, n + k, m - 1);
      }
    }
  }

  /** The trace of the next step, if the run takes one. */
  lemma AmongStep(env: Env, cx: Context, p: Program, start: Config, others: Others, n: nat)
    requires WellFormedProgram(p)
    ensures var c := Among(env, cx, p, start, others, n);
            Among(env, cx, p, start, others, n + 1).data.trace ==
            if Fetches(p, c.place) then
              c.data.trace + Observe(cx.func, Current(p, c),
                  Met(cx, p, c, others, Elapsed(env, cx, p, start, others, n)))
            else c.data.trace
  {
    hide WellFormedProgram, RelyObserved, RelyObservedSteps, Met, Observe;
    RelyLast(env, cx, p, start, others, 0, n);
    RelyStepTrace(env, cx, p, Among(env, cx, p, start, others, n), others, Elapsed(env, cx, p, start, others, n));
  }

  lemma {:induction false} RelyTraceGrows(env: Env, cx: Context, p: Program, c: Config, others: Others, i: nat, j: nat)
    requires WellFormedProgram(p) && i <= j
    ensures Among(env, cx, p, c, others, i).data.trace <= Among(env, cx, p, c, others, j).data.trace
    decreases j
  {
    hide WellFormedProgram, Among, Met, Elapsed, Observe;
    if i < j {
      RelyTraceGrows(env, cx, p, c, others, i, j - 1);
      AmongStep(env, cx, p, c, others, j - 1);
    }
  }

  lemma {:induction false} FewerGuards(env: Env, cx: Context, p: Program, c: Config, others: Others, own: iset<Value>,
                                       n: nat, m: nat, k: nat)
    requires GuardsPrivate(env, cx, p, c, others, own, n, m) && k <= m
    ensures GuardsPrivate(env, cx, p, c, others, own, n, k)
    decreases k
  {
    hide GuardPrivate, RelyObserved, Cost;
    if k > 0 && c.place.At? {
      FewerGuards(env, cx, p, RelyObserved(env, cx, p, c, others, n), others, own, n + Cost(cx, p, c.place), m - 1,
                  k - 1);
    }
  }

  lemma TraceAmongIsObserved(env: Env, cx: Context, p: Program, d: Data, b: Label, others: Others, own: iset<Value>,
                             m: nat, k: nat)
    requires WellFormedProgram(p) && b < |p| && Respects(others, own) && k <= m
    requires GuardsPrivate(env, cx, p, Config(d, At(b, 0)), others, own, 0, m)
    ensures var start := Config(d, At(b, 0));
            TraceAmong(env, cx, p, start, others, k) == Among(env, cx, p, start, others, k).data.trace
  {
    FewerGuards(env, cx, p, Config(d, At(b, 0)), others, own, 0, m, k);
    PassPreservesMeaningAmongThreads(env, cx, p, d, b, others, own, k);
    hide RelySteps, RelyObservedSteps, RelyCost, GuardsPrivate, Respects;
  }

  /** What the instrumented program adds to its trace for one instruction, among other threads. */
  lemma RecordOfStepAmongThreads(env: Env, cx: Context, p: Program, d: Data, b: Label, others: Others,
                                 own: iset<Value>, n: nat)
    requires WellFormedProgram(p) && b < |p| && Respects(others, own)
    requires GuardsPrivate(env, cx, p, Config(d, At(b, 0)), others, own, 0, n + 1)
    ensures var start := Config(d, At(b, 0));
            var c, t := Among(env, cx, p, start, others, n), TraceAmong(env, cx, p, start, others, n);
            if Fetches(p, c.place) then
              TraceAmong(env, cx, p, start, others, n + 1)
              == t + Observe(cx.func, Current(p, c), Met(cx, p, c, others, Elapsed(env, cx, p, start, others, n)))
            else TraceAmong(env, cx, p, start, others, n + 1) == t
  {
    hide WellFormedProgram, GuardsPrivate, Respects, Among, TraceAmong, Elapsed, Observe, Met;
    TraceAmongIsObserved(env, cx, p, d, b, others, own, n + 1, n);
    TraceAmongIsObserved(env, cx, p, d, b, others, own, n + 1, n + 1);
    AmongStep(env, cx, p, Config(d, At(b, 0)), others, n);
  }

  /** And a lock call and the unlock through its guard name the same lock among other threads too. */
  lemma LockAndUnlockAgreeAmongThreads(env: Env, cx: Context, p: Program, d: Data, b: Label, kind: Kind, others: Others,
                                       own: iset<Value>, i: nat, j: nat, offset: Value)
    requires WellFormedProgram(p) && b < |p| && Library(env, offset) && i < j && Respects(others, own)
    requires GuardsPrivate(env, cx, p, Config(d, At(b, 0)), others, own, 0, j + 1)
    requires var start := Config(d, At(b, 0));
             var c, e := Among(env, cx, p, start, others, i), Among(env, cx, p, start, others, j);
             && Fetches(p, c.place) && Fetches(p, e.place)
             && Takes(kind, Current(p, c)) && GivesBack(kind, Current(p, e))
             && var at := Met(cx, p, c, others, Elapsed(env, cx, p, start, others, i));
                var at' := Met(cx, p, e, others, Elapsed(env, cx, p, start, others, j));
                && Succeeds(env, Current(p, c), at)
                && Read(at'.mem, Eval(Current(p, e).op.args[0], at'))
                   == GuardWord(env, kind, Current(p, c), at, offset)
    ensures var start := Config(d, At(b, 0));
            var c, e := Among(env, cx, p, start, others, i), Among(env, cx, p, start, others, j);
            BothIn(TraceAmong(env, cx, p, start, others, j + 1), |TraceAmong(env, cx, p, start, others, i)|,
                   |TraceAmong(env, cx, p, start, others, j)|, cx.func, kind, Current(p, c), Current(p, e),
                   LockOf(kind, Current(p, c), Met(cx, p, c, others, Elapsed(env, cx, p, start, others, i))))
  {
    hide Library, GuardWord, Among, TraceAmong, Elapsed, Observe, WellFormedProgram, LockOf, Met, GuardsPrivate,
        Respects;
    var start := Config(d, At(b, 0));
    var c, e := Among(env, cx, p, start, others, i), Among(env, cx, p, start, others, j);
    var k, l := Elapsed(env, cx, p, start, others, i), Elapsed(env, cx, p, start, others, j);
    var x, y, at := Current(p, c), Current(p, e), Met(cx, p, c, others, k);
    PairedRecords(env, cx.func, kind, x, y, at, Met(cx, p, e, others, l), offset);
    TraceAmongIsObserved(env, cx, p, d, b, others, own, j + 1, i);
    TraceAmongIsObserved(env, cx, p, d, b, others, own, j + 1, j);
    TraceAmongIsObserved(env, cx, p, d, b, others, own, j + 1, j + 1);
    AmongStep(env, cx, p, start, others, i);
    AmongStep(env, cx, p, start, others, j);
    RelyTraceGrows(env, cx, p, start, others, i + 1, j);
    var lock := LockOf(kind, x, at);
    TwoRecords(c.data.trace, Record(x.dbg.value, cx.func, TakeName(kind), lock), e.data.trace,
               Record(y.dbg.value, cx.func, GiveName(kind), lock));
  }
}
