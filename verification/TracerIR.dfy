/** A small SSA intermediate representation with a control-flow graph, and its execution.

    Values are integers and memory is total: reading an address nobody wrote yields 0.  Calls to
    code outside the function are an arbitrary function of the callee, the arguments and the memory. */
module TracerIR {
  import opened Common

  type Value = int
  type Label = nat

  /** The result of an original instruction, or the k-th helper value made for it by the pass. */
  datatype Reg = Own(id: nat) | Aux(id: nat, k: nat)
  datatype Operand = Register(reg: Reg) | Constant(value: Value)

  datatype LockOp = MutexLock | MutexUnlock | ReadLock | ReadUnlock | WriteLock | WriteUnlock
  datatype Callee = Recognised(op: LockOp) | Unrecognised(name: nat)

  datatype Op =
    | Store(val: Operand, ptr: Operand)
    | Load(ptr: Operand)
    | Invoke(callee: Callee, args: seq<Operand>, normal: Label, unwind: Label)
    | Call(callee: Callee, args: seq<Operand>)
    | Arith(operator: nat, left: Operand, right: Operand)
    | Branch(cond: Operand, yes: Label, no: Label)
    | Ret
    | BitCast(of: Operand)
    | FieldZero(of: Operand)       // address of the first field
    | Probe(line: nat, func: string, name: string, addr: Operand)
    | ProbeLock(line: nat, func: string, name: string, addr: Operand)
    | InitLog

  datatype Instr = Instr(dst: Reg, op: Op, dbg: Option<nat>)

  type Program = seq<seq<Instr>>

  /** What a probe hands to the logger. */
  datatype Record = Record(line: nat, func: string, name: string, addr: Value)

  datatype Data = Data(regs: map<Reg, Value>, mem: map<Value, Value>, trace: seq<Record>)
  datatype Place = At(block: Label, index: nat) | Returned | Stuck
  datatype Config = Config(data: Data, place: Place)

  datatype ExtResult = ExtResult(ret: Value, mem: map<Value, Value>, unwinds: bool)
  datatype Env = Env(ext: (Callee, seq<Value>, map<Value, Value>) -> ExtResult, alu: (nat, Value, Value) -> Value)

  function Get(regs: map<Reg, Value>, r: Reg): Value { if r in regs then regs[r] else 0 }
  function Read(mem: map<Value, Value>, a: Value): Value { if a in mem then mem[a] else 0 }

  function Eval(o: Operand, d: Data): Value {
    match o
    case Register(r) => Get(d.regs, r)
    case Constant(v) => v
  }

  function EvalAll(os: seq<Operand>, d: Data): (r: seq<Value>)
    ensures |r| == |os|
  {
    seq(|os|, i requires 0 <= i < |os| => Eval(os[i], d))
  }

  predicate Transfers(op: Op) { op.Invoke? || op.Branch? || op.Ret? }

  /** The effect of an instruction that falls through to the next one. */
  function Straight(env: Env, i: Instr, d: Data): Data {
    match i.op
    case Store(val, ptr) => d.(mem := d.mem[Eval(ptr, d) := Eval(val, d)])
    case Load(ptr) => d.(regs := d.regs[i.dst := Read(d.mem, Eval(ptr, d))])
    case Call(callee, args) =>
      var r := env.ext(callee, EvalAll(args, d), d.mem);
      d.(regs := d.regs[i.dst := r.ret], mem := r.mem)
    case Arith(f, a, b) => d.(regs := d.regs[i.dst := env.alu(f, Eval(a, d), Eval(b, d))])
    case BitCast(v) => d.(regs := d.regs[i.dst := Eval(v, d)])
    case FieldZero(v) => d.(regs := d.regs[i.dst := Eval(v, d)])
    case Probe(line, func, name, addr) => d.(trace := d.trace + [Record(line, func, name, Eval(addr, d))])
    case ProbeLock(line, func, name, addr) => d.(trace := d.trace + [Record(line, func, name, Eval(addr, d))])
    case _ => d
  }

  /** The effect of an instruction that ends its block. */
  function Transfer(env: Env, i: Instr, d: Data): Config {
    match i.op
    case Invoke(callee, args, normal, unwind) =>
      var r := env.ext(callee, EvalAll(args, d), d.mem);
      Config(d.(regs := d.regs[i.dst := r.ret], mem := r.mem), At(if r.unwinds then unwind else normal, 0))
    case Branch(cond, yes, no) => Config(d, At(if Eval(cond, d) != 0 then yes else no, 0))
    case _ => Config(d, Returned)
  }

  predicate Fetches(p: Program, place: Place) {
    place.At? && place.block < |p| && place.index < |p[place.block]|
  }

  function Step(env: Env, p: Program, c: Config): Config {
    if Fetches(p, c.place) then
      var i := p[c.place.block][c.place.index];
      if Transfers(i.op) then Transfer(env, i, c.data)
      else Config(Straight(env, i, c.data), At(c.place.block, c.place.index + 1))
    else if c.place.At? then c.(place := Stuck)
    else c
  }

  function Steps(env: Env, p: Program, c: Config, n: nat): Config
    decreases n
  {
    if n == 0 then c else Steps(env, p, Step(env, p, c), n - 1)
  }

  lemma {:induction false} StepsAdd(env: Env, p: Program, c: Config, m: nat, n: nat)
    ensures Steps(env, p, c, m + n) == Steps(env, p, Steps(env, p, c, m), n)
    decreases m
  {
    if m > 0 {
      StepsAdd(env, p, Step(env, p, c), m - 1, n);
    }
  }

  /** Nothing moves after the end. */
  lemma {:induction false} StepsAtEnd(env: Env, p: Program, c: Config, n: nat)
    requires !c.place.At?
    ensures Steps(env, p, c, n) == c
  {
    if n > 0 {
      StepsAtEnd(env, p, c, n - 1);
    }
  }
}
