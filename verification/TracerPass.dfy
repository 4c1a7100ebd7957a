/** The instrumentation pass of HelloWorld/function.cpp: what it inserts, and the in-place loop that
    inserts it into the list it is iterating over. */
module TracerPass {
  import opened Common
  import opened TracerIR

  /** What the pass knows about the function: its name, and the values whose type is already a byte
      pointer, for which the builder makes no cast. */
  datatype Context = Context(func: string, castFree: set<Operand>)

  /** The builder's bit cast of v to a byte pointer, made as helper value k of instruction id. */
  function CastCode(cx: Context, id: nat, k: nat, v: Operand, dbg: Option<nat>): seq<Instr> {
    if v in cx.castFree then [] else [Instr(Aux(id, k), BitCast(v), dbg)]
  }

  function CastValue(cx: Context, id: nat, k: nat, v: Operand): Operand {
    if v in cx.castFree then v else Register(Aux(id, k))
  }

  function ProbeCode(cx: Context, id: nat, line: nat, name: string, v: Operand, dbg: Option<nat>): seq<Instr> {
    CastCode(cx, id, 0, v, dbg) + [Instr(Aux(id, 1), Probe(line, cx.func, name, CastValue(cx, id, 0, v)), dbg)]
  }

  function ProbeLockCode(cx: Context, id: nat, line: nat, name: string, v: Operand, dbg: Option<nat>): seq<Instr> {
    CastCode(cx, id, 0, v, dbg) + [Instr(Aux(id, 1), ProbeLock(line, cx.func, name, CastValue(cx, id, 0, v)), dbg)]
  }

  /** The guard's first word, read again through the address of its first field. */
  function FirstFieldCode(id: nat, guard: Operand, dbg: Option<nat>): seq<Instr> {
    [Instr(Aux(id, 2), Load(guard), dbg),
     Instr(Aux(id, 3), FieldZero(guard), dbg),
     Instr(Aux(id, 4), Load(Register(Aux(id, 3))), dbg)]
  }

  function LockName(op: LockOp): string {
    match op
    case MutexLock => "lock"
    case MutexUnlock => "unlock"
    case ReadLock => "rwlock read lock"
    case ReadUnlock => "rwlock read unlock"
    case WriteLock => "rwlock write lock"
    case WriteUnlock => "rwlock write unlock"
  }

  /** The names of operations that the pass passes to the logger. */
  const OPERATIONS: seq<string> :=
    ["store", "load", "lock", "unlock", "rwlock read lock", "rwlock read unlock", "rwlock write lock",
        "rwlock write unlock"]

  /** The argument the branch for op looks at. */
  function LockArg(op: LockOp): nat {
    if op.MutexLock? || op.WriteLock? then 1 else 0
  }

  /** What is inserted before a recognised invoke. */
  function InvokeCode(cx: Context, id: nat, line: nat, op: LockOp, v: Operand, dbg: Option<nat>): seq<Instr> {
    match op
    case MutexUnlock => FirstFieldCode(id, v, dbg) + ProbeLockCode(cx, id, line, LockName(op), Register(Aux(id, 4)),
        dbg)
    case WriteUnlock => FirstFieldCode(id, v, dbg) + ProbeLockCode(cx, id, line, LockName(op), Register(Aux(id, 4)),
        dbg)
    case ReadUnlock =>
      [Instr(Aux(id, 2), Load(v), dbg)] + ProbeLockCode(cx, id, line, LockName(op), Register(Aux(id, 2)), dbg)
    case _ => ProbeLockCode(cx, id, line, LockName(op), v, dbg)
  }

  function Before(cx: Context, i: Instr): seq<Instr> {
    if i.dbg.None? then []
    else match i.op
      case Store(_, ptr) => ProbeCode(cx, i.dst.id, i.dbg.value, "store", ptr, i.dbg)
      case Invoke(Recognised(op), args, _, _) =>
        if LockArg(op) < |args| then InvokeCode(cx, i.dst.id, i.dbg.value, op, args[LockArg(op)], i.dbg) else []
      case _ => []
  }

  /** What is inserted after i; the builder takes the debug location of the instruction that follows. */
  function Following(cx: Context, i: Instr, next: Option<nat>): seq<Instr> {
    if i.dbg.Some? && i.op.Load? then ProbeCode(cx, i.dst.id, i.dbg.value, "load", i.op.ptr, next) else []
  }

  function NextDbg(s: seq<Instr>): Option<nat>
    requires s != []
  {
    if |s| > 1 then s[1].dbg else s[0].dbg
  }

  /** The first instruction of s with everything inserted around it. */
  function Expand(cx: Context, s: seq<Instr>): (r: seq<Instr>)
    requires s != []
    ensures r != []
  {
    Before(cx, s[0]) + [s[0]] + Following(cx, s[0], NextDbg(s))
  }

  /** The block after the pass. */
  function Instrument(cx: Context, s: seq<Instr>): seq<Instr> {
    if s == [] then [] else Expand(cx, s) + Instrument(cx, s[1..])
  }

  predicate Original(i: Instr) { i.dst.Own? }

  predicate Originals(s: seq<Instr>) { forall k :: 0 <= k < |s| ==> Original(s[k]) }

  /** Dropping everything the pass made. */
  function Erase(s: seq<Instr>): seq<Instr> {
    if s == [] then [] else (if Original(s[0]) then [s[0]] else []) + Erase(s[1..])
  }

  lemma {:induction false} EraseAppend(xs: seq<Instr>, ys: seq<Instr>)
    ensures Erase(xs + ys) == Erase(xs) + Erase(ys)
  {
    hide Original;
    if xs == [] {
      assert xs + ys == ys;
    } else {
      assert (xs + ys)[1..] == xs[1..] + ys && (xs + ys)[0] == xs[0];
      EraseAppend(xs[1..], ys);
      Associate(if Original(xs[0]) then [xs[0]] else [], Erase(xs[1..]), Erase(ys));
    }
  }

  lemma {:induction false} EraseHelpers(xs: seq<Instr>)
    requires forall k :: 0 <= k < |xs| ==> !Original(xs[k])
    ensures Erase(xs) == []
  {
    if xs != [] {
      EraseHelpers(xs[1..]);
    }
  }

  /** Nothing the pass makes counts as an original instruction. */
  lemma InsertedAreHelpers(cx: Context, i: Instr, next: Option<nat>)
    ensures forall k :: 0 <= k < |Before(cx, i)| ==> !Original(Before(cx, i)[k])
    ensures forall k :: 0 <= k < |Following(cx, i, next)| ==> !Original(Following(cx, i, next)[k])
  {
  }

  /** The pass only inserts: erasing what it made gives the block back. */
  lemma {:induction false} EraseInstrument(cx: Context, s: seq<Instr>)
    requires Originals(s)
    ensures Erase(Instrument(cx, s)) == s
  {
    if s != [] {
      InsertedAreHelpers(cx, s[0], NextDbg(s));
      hide Before, Following;
      var b, a := Before(cx, s[0]), Following(cx, s[0], NextDbg(s));
      EraseHelpers(b);
      EraseHelpers(a);
      EraseAppend(b + [s[0]] + a, Instrument(cx, s[1..]));
      EraseAppend(b + [s[0]], a);
      EraseAppend(b, [s[0]]);
      assert Erase([s[0]]) == [s[0]] by { assert [s[0]][1..] == []; }
      EraseInstrument(cx, s[1..]);
    }
  }

  /** The branches of the pass's loop do nothing for i. */
  predicate Skipped(i: Instr) {
    i.dbg.None? || (!i.op.Store? && !i.op.Load? && !(i.op.Invoke? && i.op.callee.Recognised?))
  }

  /** What comes after a load is visited by the loop and skipped, whatever its debug location. */
  lemma FollowingIsSkipped(cx: Context, i: Instr, next: Option<nat>)
    ensures forall k :: 0 <= k < |Following(cx, i, next)| ==> Skipped(Following(cx, i, next)[k])
  {
  }

  // ----- which functions are instrumented

  /** `s.find(t) != npos`. */
  predicate Contains(s: string, t: string) {
    exists i :: 0 <= i <= |s| && OccursAt(s, t, i)
  }

  predicate OccursAt(s: string, t: string, i: nat) {
    i + |t| <= |s| && s[i..i + |t|] == t
  }

  /** The position of the first occurrence of t in s, or |s|. */
  function Find(s: string, t: string, from: nat := 0): (i: nat)
    requires from <= |s|
    ensures from <= i <= |s|
    ensures i == |s| || (i + |t| <= |s| && s[i..i + |t|] == t)
    ensures forall j :: from <= j < i ==> !OccursAt(s, t, j)
    decreases |s| - from
  {
    if OccursAt(s, t, from) then from
    else if from == |s| then |s|
    else Find(s, t, from + 1)
  }

  function FileName(moduleName: string): string {
    moduleName[..Find(moduleName, ".ll")]
  }

  predicate Selected(moduleName: string, func: string) {
    Contains(func, FileName(moduleName)) && !Contains(func, "core") && !Contains(func, "std")
  }

  /** t is a part of s. */
  ghost predicate Has(s: string, t: string) {
    exists x: string, y: string :: s == x + t + y
  }

  lemma ContainsIsHas(s: string, t: string)
    ensures Contains(s, t) <==> Has(s, t)
  {
    if i: nat :| i <= |s| && OccursAt(s, t, i) {
      assert s == s[..i] + t + s[i + |t|..];
    }
    if x: string, y: string :| s == x + t + y {
      assert s[|x|..|x| + |t|] == t;
      assert OccursAt(s, t, |x|);
    }
  }

  /** The name of a module starts with the name of its crate and ".ll". */
  ghost predicate ModuleOf(moduleName: string, crate: string) {
    !Has(crate, ".ll") && exists rest: string :: moduleName == crate + ".ll" + rest
  }

  /** A ".ll" that starts in the crate's name ends in it: the one that follows starts with a dot. */
  lemma StaysInside(crate: string, rest: string, i: nat)
    requires i < |crate| && OccursAt(crate + ".ll" + rest, ".ll", i)
    ensures Has(crate, ".ll")
  {
    var s, n := crate + ".ll" + rest, |crate|;
    var m := s[i..i + 3];
    assert s[i + 1] == m[1] == 'l' && s[i + 2] == m[2] == 'l' && s[n] == '.';
    assert crate[i..i + 3] == m;
    assert crate == crate[..i] + ".ll" + crate[i + 3..];
  }

  /** The file name is the crate's name, also if that ends in a part of ".ll". */
  lemma FileNameIsCrate(moduleName: string, crate: string)
    requires ModuleOf(moduleName, crate)
    ensures FileName(moduleName) == crate
  {
    var rest: string :| moduleName == crate + ".ll" + rest;
    var i, n := Find(moduleName, ".ll"), |crate|;
    assert moduleName[n..n + 3] == ".ll";
    assert OccursAt(moduleName, ".ll", n);
    if i < n {
      StaysInside(crate, rest, i);
    }
  }

  /** The name has the crate's name in it, and neither "core" nor "std". */
  ghost predicate InCrate(crate: string, func: string) {
    Has(func, crate) && !Has(func, "core") && !Has(func, "std")
  }

  /** In a module of the crate exactly these functions are instrumented. */
  lemma SelectedExact(moduleName: string, crate: string, func: string)
    requires ModuleOf(moduleName, crate)
    ensures Selected(moduleName, func) <==> InCrate(crate, func)
  {
    FileNameIsCrate(moduleName, crate);
    ContainsIsHas(func, crate);
    ContainsIsHas(func, "core");
    ContainsIsHas(func, "std");
  }

  // ----- the pass itself

  class Block {
    var instrs: seq<Instr>

    constructor (instrs: seq<Instr>)
      ensures this.instrs == instrs
    {
      this.instrs := instrs;
    }
  }

  class Function {
    const name: string
    const castFree: set<Operand>
    const blocks: seq<Block>

    constructor (name: string, castFree: set<Operand>, blocks: seq<Block>)
      ensures this.name == name && this.castFree == castFree && this.blocks == blocks
    {
      this.name, this.castFree, this.blocks := name, castFree, blocks;
    }
  }

  const INIT_CALL := Instr(Aux(0, 5), InitLog, None)

  class HelloWorld {
    var initial: bool
    var FName: string
    const moduleName: string
    const mainEntry: Block?

    constructor (moduleName: string, mainEntry: Block?)
      ensures !initial && this.moduleName == moduleName && this.mainEntry == mainEntry
    {
      initial, FName, this.moduleName, this.mainEntry := false, "", moduleName, mainEntry;
    }

    /** `IRBuilder<> builder(I)`: new instructions go before the one at `it`, which keeps its place
        in the iteration. */
    method InsertBefore(b: Block, it: nat, code: seq<Instr>) returns (it': nat)
      requires it < |b.instrs|
      modifies b
      ensures b.instrs == old(b.instrs)[..it] + code + old(b.instrs)[it..]
      ensures it' == it + |code| < |b.instrs| && b.instrs[it'] == old(b.instrs)[it]
    {
      b.instrs := b.instrs[..it] + code + b.instrs[it..];
      it' := it + |code|;
    }

    method StoreLog(b: Block, it: nat, cx: Context) returns (it': nat)
      requires it < |b.instrs| && b.instrs[it].op.Store?
      modifies b
      ensures Instrumented(cx, old(b.instrs), it, b.instrs, it')
      ensures var i := old(b.instrs[it]);
              if i.dbg.None? then b.instrs == old(b.instrs)
              else it' > it && b.instrs[it' - 1].op
                   == Probe(i.dbg.value, cx.func, "store", CastValue(cx, i.dst.id, 0, i.op.ptr))
      ensures it <= it' && forall k :: it <= k < it' ==> b.instrs[k].dbg == old(b.instrs[it]).dbg
    {
      var i := b.instrs[it];
      it' := it;
      if i.dbg.Some? {
        it' := InsertBefore(b, it, ProbeCode(cx, i.dst.id, i.dbg.value, "store", i.op.ptr, i.dbg));
      }
    }

    method LoadLog(b: Block, it: nat, cx: Context)
      requires it < |b.instrs| && b.instrs[it].op.Load?
      modifies b
      ensures Instrumented(cx, old(b.instrs), it, b.instrs, it)
      ensures var i, more := old(b.instrs[it]), |b.instrs| - |old(b.instrs)|;
              if i.dbg.None? then b.instrs == old(b.instrs)
              else more > 0 && b.instrs[it + more].op
                   == Probe(i.dbg.value, cx.func, "load", CastValue(cx, i.dst.id, 0, i.op.ptr))
      ensures forall k :: it < k <= it + |b.instrs| - |old(b.instrs)| ==>
                k < |b.instrs| && b.instrs[k].dbg
                == if it + 1 < |old(b.instrs)| then old(b.instrs[it + 1]).dbg else old(b.instrs[it]).dbg
    {
      var i := b.instrs[it];
      if i.dbg.Some? {
        var dbg := if it + 1 < |b.instrs| then b.instrs[it + 1].dbg else i.dbg;
        b.instrs := b.instrs[..it + 1] + ProbeCode(cx, i.dst.id, i.dbg.value, "load", i.op.ptr, dbg)
            + b.instrs[it + 1..];
      }
    }

    /** The branches for the six recognised callees. */
    method InvokeLog(b: Block, it: nat, cx: Context) returns (it': nat)
      requires it < |b.instrs| && b.instrs[it].op.Invoke?
      modifies b
      ensures Instrumented(cx, old(b.instrs), it, b.instrs, it')
      ensures it <= it' && LockProbed(cx, old(b.instrs[it]), b.instrs[it..it'])
    {
      var i, code := b.instrs[it], [];
      if i.dbg.Some? && i.op.callee.Recognised? {
        var args, dbg, line, id := i.op.args, i.dbg, i.dbg.value, i.dst.id;
        match i.op.callee.op {
          case MutexLock =>
            if |args| > 1 {
              code := ProbeLockCode(cx, id, line, "lock", args[1], dbg);
            }
          case MutexUnlock =>
            if |args| > 0 {
              code := FirstFieldCode(id, args[0], dbg) + ProbeLockCode(cx, id, line, "unlock", Register(Aux(id, 4)),
                  dbg);
            }
          case ReadLock =>
            if |args| > 0 {
              code := ProbeLockCode(cx, id, line, "rwlock read lock", args[0], dbg);
            }
          case ReadUnlock =>
            if |args| > 0 {
              code := [Instr(Aux(id, 2), Load(args[0]), dbg)]
                      + ProbeLockCode(cx, id, line, "rwlock read unlock", Register(Aux(id, 2)), dbg);
            }
          case WriteLock =>
            if |args| > 1 {
              code := ProbeLockCode(cx, id, line, "rwlock write lock", args[1], dbg);
            }
          case WriteUnlock =>
            if |args| > 0 {
              code := FirstFieldCode(id, args[0], dbg)
                      + ProbeLockCode(cx, id, line, "rwlock write unlock", Register(Aux(id, 4)), dbg);
            }
        }
      }
      assert code == Before(cx, i);
      hide Before, LockProbed, Instrumented;
      InvokeIsProbed(cx, i);
      InsertsBefore(cx, b.instrs, it, code);
      it' := InsertBefore(b, it, code);
      assert b.instrs[it..it'] == code;
    }

    /** The body of the loop: the branch for the opcode of the current instruction. */
    method Treat(b: Block, it: nat, cx: Context) returns (it': nat)
      requires it < |b.instrs|
      modifies b
      ensures Instrumented(cx, old(b.instrs), it, b.instrs, it')
    {
      it' := it;
      match b.instrs[it].op {
        case Store(_, _) => it' := StoreLog(b, it, cx);
        case Load(_) => LoadLog(b, it, cx);
        case Invoke(_, _, _, _) => it' := InvokeLog(b, it, cx);
        case _ =>
      }
    }

    /** The loop over one block, inserting into the list it iterates over.  What is inserted before
        the current instruction is never visited; what is inserted after a load is visited and
        skipped; so the loop ends, and every instruction of the block as it was is treated once. */
    method RunBlock(b: Block, castFree: set<Operand>)
      modifies b
      ensures b.instrs == Instrument(Context(FName, castFree), old(b.instrs))
    {
      var cx := Context(FName, castFree);
      ghost var target := Instrument(cx, b.instrs);
      ghost var done, pending, rest := [], [], b.instrs;
      var it := 0;
      while it < |b.instrs|
        invariant it == |done| && Underway(cx, target, done, pending, rest, b.instrs)
        decreases |rest|, |pending|
      {
        it := Treat(b, it, cx);
        done, pending, rest := Advance(cx, target, done, pending, rest, b.instrs, it);
        it := it + 1;
      }
    }

    /** `initialization`: insert the call that opens the log at the start of main.  Entry blocks have
        no predecessors, so there are no phi instructions to step over. */
    method Initialization()
      modifies mainEntry
      ensures mainEntry != null ==> mainEntry.instrs == [INIT_CALL] + old(mainEntry.instrs)
    {
      if mainEntry != null {
        mainEntry.instrs := [INIT_CALL] + mainEntry.instrs;
      }
    }

    /** `run`: instrument every block of one function, unless its name rules it out; before the first
        instrumented function, set up the log in main. */
    method Run(f: Function)
      requires forall i, j :: 0 <= i < j < |f.blocks| ==> f.blocks[i] != f.blocks[j]
      modifies this, mainEntry, f.blocks
      ensures FName == f.name
      ensures initial == (old(initial) || Selected(moduleName, f.name))
      ensures !Selected(moduleName, f.name) ==>
                forall b: Block :: b in f.blocks || b == mainEntry ==> b.instrs == old(b.instrs)
      ensures Selected(moduleName, f.name) ==>
                forall b: Block :: b in f.blocks ==>
                  b.instrs == Instrument(Context(f.name, f.castFree),
                      WithInit(!old(initial) && b == mainEntry, old(b.instrs)))
      ensures Selected(moduleName, f.name) && mainEntry != null && mainEntry !in f.blocks ==>
                mainEntry.instrs == WithInit(!old(initial), old(mainEntry.instrs))
      ensures forall crate :: ModuleOf(moduleName, crate) ==> initial == (old(initial) || InCrate(crate, f.name))
      ensures forall crate, b: Block :: ModuleOf(moduleName, crate) && b in f.blocks ==>
                b.instrs == if InCrate(crate, f.name) then
                              Instrument(Context(f.name, f.castFree),
                                  WithInit(!old(initial) && b == mainEntry, old(b.instrs)))
                            else old(b.instrs)
    {
      forall crate | ModuleOf(moduleName, crate) ensures Selected(moduleName, f.name) <==> InCrate(crate, f.name) {
        SelectedExact(moduleName, crate, f.name);
      }
      hide Selected, ModuleOf, InCrate;
      FName := f.name;
      if !Selected(moduleName, FName) {
        return;
      }
      if !initial {
        Initialization();
        initial := true;
      }
      RunBlocks(f);
    }

    method RunBlocks(f: Function)
      requires FName == f.name
      requires forall i, j :: 0 <= i < j < |f.blocks| ==> f.blocks[i] != f.blocks[j]
      modifies f.blocks
      ensures forall b: Block :: b in f.blocks ==> b.instrs == Instrument(Context(f.name, f.castFree), old(b.instrs))
    {
      for n := 0 to |f.blocks|
        invariant forall k {:trigger f.blocks[k]} :: 0 <= k < n ==>
                    f.blocks[k].instrs == Instrument(Context(f.name, f.castFree), old(f.blocks[k].instrs))
        invariant forall k {:trigger f.blocks[k]} :: n <= k < |f.blocks| ==>
                    f.blocks[k].instrs == old(f.blocks[k].instrs)
      {
        RunBlock(f.blocks[n], f.castFree);
      }
    }

    /** The pass over all functions of a module.  It puts exactly one `_init_` call into main, in front of
        everything else, if anything is instrumented at all, and none otherwise; it instruments every
        block of every function of the crate exactly once; and it leaves all other blocks alone. */
    method RunModule(fs: seq<Function>)
      requires !initial
      requires forall f :: f in fs ==> forall i, j :: 0 <= i < j < |f.blocks| ==> f.blocks[i] != f.blocks[j]
      requires mainEntry != null ==> Originals(mainEntry.instrs)
      modifies this, mainEntry, AllBlocks(fs)
      ensures initial <==> exists f :: f in fs && Selected(moduleName, f.name)
      ensures mainEntry != null ==> Inits(mainEntry.instrs) == if initial then 1 else 0
      ensures mainEntry != null && initial ==> mainEntry.instrs != [] && mainEntry.instrs[0] == INIT_CALL
      ensures forall crate :: ModuleOf(moduleName, crate) ==>
                (initial <==> exists f :: f in fs && InCrate(crate, f.name))
      ensures Apart(fs) ==>
                forall crate, f, b: Block :: ModuleOf(moduleName, crate) && f in fs && b in f.blocks ==>
                  b.instrs == WithInit(initial && b == mainEntry,
                      if InCrate(crate, f.name) then Instrument(Context(f.name, f.castFree), old(b.instrs))
                      else old(b.instrs))
    {
      ghost var was := map b | b in AllBlocks(fs) :: b.instrs;
      forall crate, f | ModuleOf(moduleName, crate) && f in fs
        ensures Selected(moduleName, f.name) <==> InCrate(crate, f.name)
      {
        SelectedExact(moduleName, crate, f.name);
      }
      hide Selected, ModuleOf, InCrate, Originals, Instrument, WithInit;
      RunAll(fs, was);
    }

    /** The functions one after the other. */
    method RunAll(fs: seq<Function>, ghost was: map<Block, seq<Instr>>)
      requires !initial
      requires forall f :: f in fs ==> forall i, j :: 0 <= i < j < |f.blocks| ==> f.blocks[i] != f.blocks[j]
      requires mainEntry != null ==> Originals(mainEntry.instrs)
      requires forall b :: b in AllBlocks(fs) ==> b in was && was[b] == b.instrs
      modifies this, mainEntry, AllBlocks(fs)
      ensures (initial <==> exists f :: f in fs && Selected(moduleName, f.name)) && MainOk()
      ensures Apart(fs) ==> Through(fs, was, |fs|)
    {
      if mainEntry != null {
        OriginalsHaveNoInit(mainEntry.instrs);
      }
      hide Selected, Instrument, Inits;
      for n := 0 to |fs|
        invariant initial <==> exists k :: 0 <= k < n && Selected(moduleName, fs[k].name)
        invariant MainOk()
        invariant Apart(fs) ==> Through(fs, was, n)
      {
        RunNext(fs, n, was);
      }
    }

    /** One function of the module. */
    method RunNext(fs: seq<Function>, n: nat, ghost was: map<Block, seq<Instr>>)
      requires n < |fs| && MainOk()
      requires forall f :: f in fs ==> forall i, j :: 0 <= i < j < |f.blocks| ==> f.blocks[i] != f.blocks[j]
      requires Apart(fs) ==> Through(fs, was, n)
      modifies this, mainEntry, AllBlocks(fs)
      ensures initial == (old(initial) || Selected(moduleName, fs[n].name)) && MainOk()
      ensures Apart(fs) ==> Through(fs, was, n + 1)
    {
      var f := fs[n];
      ghost var first := !initial;
      ghost var cx := Context(f.name, f.castFree);
      assert f in fs;
      if mainEntry != null {
        InitsOfInstrument(cx, WithInit(first, mainEntry.instrs));
        InitsOfInstrument(cx, WithInit(false, mainEntry.instrs));
      }
      hide Selected, ModuleOf, InCrate, Instrument, Inits;
      Run(f);
      if Apart(fs) {
        forall k, b: Block | 0 <= k < |fs| && b in fs[k].blocks
          ensures b.instrs == WithInit(initial && b == mainEntry, After(fs[k], k < n + 1, was[b]))
        {
          InitStaysInFront(cx, was[b]);
          assert k != n ==> b !in f.blocks;
        }
      }
    }

    /** main has one `_init_` call, in front, once something has been instrumented, and none before. */
    ghost predicate MainOk()
      reads this, mainEntry
    {
      mainEntry != null ==>
        && Inits(mainEntry.instrs) == (if initial then 1 else 0)
        && (initial ==> mainEntry.instrs != [] && mainEntry.instrs[0] == INIT_CALL)
    }

    /** What becomes of a block of f, apart from the `_init_` call. */
    ghost function After(f: Function, done: bool, s: seq<Instr>): seq<Instr> {
      if done && Selected(moduleName, f.name) then Instrument(Context(f.name, f.castFree), s) else s
    }

    /** The first n functions are done, and the others are as they were. */
    ghost predicate Through(fs: seq<Function>, was: map<Block, seq<Instr>>, n: nat)
      reads this, AllBlocks(fs)
    {
      forall k, b: Block :: 0 <= k < |fs| && b in fs[k].blocks ==>
        b in was && b.instrs == WithInit(initial && b == mainEntry, After(fs[k], k < n, was[b]))
    }
  }

  /** No block is in two functions. */
  ghost predicate Apart(fs: seq<Function>) {
    forall i, j, b :: 0 <= i < j < |fs| && b in fs[i].blocks ==> b !in fs[j].blocks
  }

  lemma InitStaysInFront(cx: Context, s: seq<Instr>)
    ensures Instrument(cx, [INIT_CALL] + s) == [INIT_CALL] + Instrument(cx, s)
  {
    assert ([INIT_CALL] + s)[1..] == s;
  }

  function AllBlocks(fs: seq<Function>): (r: set<Block>)
    ensures forall f, b :: f in fs && b in f.blocks ==> b in r
  {
    set f, b | f in fs && b in f.blocks :: b
  }

  /** How many `_init_` calls a block makes. */
  function Inits(s: seq<Instr>): nat {
    if s == [] then 0 else (if s[0].op.InitLog? && s[0].dst.Aux? then 1 else 0) + Inits(s[1..])
  }

  lemma {:induction false} OriginalsHaveNoInit(s: seq<Instr>)
    requires Originals(s)
    ensures Inits(s) == 0
  {
    if s != [] {
      OriginalsHaveNoInit(s[1..]);
    }
  }

  lemma {:induction false} InitsAppend(xs: seq<Instr>, ys: seq<Instr>)
    ensures Inits(xs + ys) == Inits(xs) + Inits(ys)
  {
    if xs == [] {
      assert xs + ys == ys;
    } else {
      assert (xs + ys)[1..] == xs[1..] + ys;
      InitsAppend(xs[1..], ys);
    }
  }

  lemma {:induction false} NoInits(xs: seq<Instr>)
    requires forall k :: 0 <= k < |xs| ==> !xs[k].op.InitLog?
    ensures Inits(xs) == 0
  {
    if xs != [] {
      NoInits(xs[1..]);
    }
  }

  lemma InsertedAreNotInits(cx: Context, i: Instr, next: Option<nat>)
    ensures forall k :: 0 <= k < |Before(cx, i)| ==> !Before(cx, i)[k].op.InitLog?
    ensures forall k :: 0 <= k < |Following(cx, i, next)| ==> !Following(cx, i, next)[k].op.InitLog?
  {
  }

  /** Instrumenting a block neither adds nor removes `_init_` calls, and leaves one at the front
      where it is. */
  lemma {:induction false} InitsOfInstrument(cx: Context, s: seq<Instr>)
    ensures Inits(Instrument(cx, s)) == Inits(s)
    ensures s != [] && s[0] == INIT_CALL ==> Instrument(cx, s) != [] && Instrument(cx, s)[0] == INIT_CALL
  {
    if s != [] {
      var b, a := Before(cx, s[0]), Following(cx, s[0], NextDbg(s));
      InsertedAreNotInits(cx, s[0], NextDbg(s));
      hide Before, Following;
      NoInits(b);
      NoInits(a);
      InitsAppend(b + [s[0]] + a, Instrument(cx, s[1..]));
      InitsAppend(b + [s[0]], a);
      InitsAppend(b, [s[0]]);
      assert [s[0]][1..] == [];
      InitsOfInstrument(cx, s[1..]);
    }
  }

  /** The entry block of main after `_init_` has been inserted, if it has to be. */
  function WithInit(needed: bool, s: seq<Instr>): seq<Instr> {
    if needed then [INIT_CALL] + s else s
  }

  /** The loop's invariant: `done` is final, `pending` was put after a load and will be skipped, and
      `rest` is still as it was. */
  ghost predicate Underway(cx: Context, target: seq<Instr>, done: seq<Instr>, pending: seq<Instr>, rest: seq<Instr>,
      now: seq<Instr>)
  {
    && now == done + pending + rest
    && target == done + pending + Instrument(cx, rest)
    && forall k :: 0 <= k < |pending| ==> Skipped(pending[k])
  }

  lemma Advance(cx: Context, target: seq<Instr>, done: seq<Instr>, pending: seq<Instr>, rest: seq<Instr>,
                after: seq<Instr>, it': nat)
      returns (done': seq<Instr>, pending': seq<Instr>, rest': seq<Instr>)
    requires Underway(cx, target, done, pending, rest, done + pending + rest)
    requires Instrumented(cx, done + pending + rest, |done|, after, it')
    ensures Underway(cx, target, done', pending', rest', after) && |done'| == it' + 1
    ensures |rest'| < |rest| || (|rest'| == |rest| && |pending'| < |pending|)
  {
    if pending != [] {
      SkipsPending(cx, done, pending, rest, after, it');
      done', pending', rest' := done + [pending[0]], pending[1..], rest;
      assert done' + pending' == done + pending;
    } else {
      assert rest != [];
      TreatsNext(cx, done, rest, after, it');
      done', pending', rest' := done + Before(cx, rest[0]) + [rest[0]], Following(cx, rest[0], NextDbg(rest)),
          rest[1..];
      Regroup(done, Before(cx, rest[0]), [rest[0]], pending', Instrument(cx, rest'));
    }
  }

  /** The block after the instruction at `it` has been treated; it' is where that instruction is now. */
  ghost predicate Instrumented(cx: Context, before: seq<Instr>, it: nat, after: seq<Instr>, it': nat)
  {
    && it < |before|
    && it' == it + |Before(cx, before[it])|
    && after == before[..it] + Expand(cx, before[it..]) + before[it + 1..]
  }

  /** What comes in front of an invoke: for a lock the probe of the lock that is passed, for an unlock
      the loads of the first word behind the guard that is passed, and the probe of that; and nothing for
      any other callee, or without a debug location. */
  ghost predicate LockProbed(cx: Context, i: Instr, code: seq<Instr>)
    requires i.op.Invoke?
  {
    var args, id := i.op.args, i.dst.id;
    && (forall k :: 0 <= k < |code| ==> code[k].dbg == i.dbg)
    && if i.dbg.None? || i.op.callee.Unrecognised? then code == []
    else match i.op.callee.op
      case MutexLock => |args| > 1 ==> EndsInProbe(cx, i, code, "lock", args[1])
      case ReadLock => |args| > 0 ==> EndsInProbe(cx, i, code, "rwlock read lock", args[0])
      case WriteLock => |args| > 1 ==> EndsInProbe(cx, i, code, "rwlock write lock", args[1])
      case MutexUnlock => |args| > 0 ==>
        EndsInProbe(cx, i, code, "unlock", Register(Aux(id, 4))) && LoadsFirstField(code, id, args[0])
      case ReadUnlock => |args| > 0 ==>
        EndsInProbe(cx, i, code, "rwlock read unlock", Register(Aux(id, 2)))
        && code[0].op == Load(args[0]) && code[0].dst == Aux(id, 2)
      case WriteUnlock => |args| > 0 ==>
        EndsInProbe(cx, i, code, "rwlock write unlock", Register(Aux(id, 4))) && LoadsFirstField(code, id, args[0])
  }

  lemma InvokeIsProbed(cx: Context, i: Instr)
    requires i.op.Invoke?
    ensures LockProbed(cx, i, Before(cx, i))
  {
  }

  ghost predicate EndsInProbe(cx: Context, i: Instr, code: seq<Instr>, name: string, v: Operand) {
    && i.dbg.Some? && code != []
    && code[|code| - 1].op == ProbeLock(i.dbg.value, cx.func, name, CastValue(cx, i.dst.id, 0, v))
  }

  ghost predicate LoadsFirstField(code: seq<Instr>, id: nat, guard: Operand) {
    && |code| > 3
    && code[0].op == Load(guard)
    && code[1].op == FieldZero(guard) && code[2].op == Load(Register(code[1].dst)) && code[2].dst == Aux(id, 4)
  }

  lemma InsertsBefore(cx: Context, s: seq<Instr>, it: nat, code: seq<Instr>)
    requires it < |s| && code == Before(cx, s[it]) && !s[it].op.Load?
    ensures Instrumented(cx, s, it, s[..it] + code + s[it..], it + |code|)
  {
    assert Expand(cx, s[it..]) == code + [s[it]] + [];
    hide Before, Expand;
    assert s[it..] == [s[it]] + s[it + 1..];
    assert s[..it] + code + s[it..] == s[..it] + (code + [s[it]] + []) + s[it + 1..];
  }

  lemma SkipsPending(cx: Context, done: seq<Instr>, pending: seq<Instr>, rest: seq<Instr>, after: seq<Instr>, it': nat)
    requires pending != [] && Skipped(pending[0])
    requires Instrumented(cx, done + pending + rest, |done|, after, it')
    ensures it' == |done| && after == done + [pending[0]] + pending[1..] + rest
  {
    var before := done + pending + rest;
    assert before[|done|] == pending[0] && before[|done|..][0] == pending[0];
    assert Before(cx, pending[0]) == [] && Following(cx, pending[0], NextDbg(before[|done|..])) == [];
    assert Expand(cx, before[|done|..]) == [pending[0]];
    assert before[..|done|] == done && before[|done| + 1..] == pending[1..] + rest;
  }

  lemma TreatsNext(cx: Context, done: seq<Instr>, rest: seq<Instr>, after: seq<Instr>, it': nat)
    requires rest != [] && Instrumented(cx, done + [] + rest, |done|, after, it')
    ensures var b, f := Before(cx, rest[0]), Following(cx, rest[0], NextDbg(rest));
            && it' == |done + b|
            && after == (done + b + [rest[0]]) + f + rest[1..]
            && Expand(cx, rest) == b + [rest[0]] + f
            && Instrument(cx, rest) == Expand(cx, rest) + Instrument(cx, rest[1..])
            && forall k :: 0 <= k < |f| ==> Skipped(f[k])
  {
    var before := done + [] + rest;
    assert before[|done|..] == rest && before[..|done|] == done && before[|done| + 1..] == rest[1..];
    FollowingIsSkipped(cx, rest[0], NextDbg(rest));
  }

  lemma Regroup<T>(a: seq<T>, b: seq<T>, c: seq<T>, d: seq<T>, e: seq<T>)
    ensures a + [] + ((b + c + d) + e) == (a + b + c) + d + e
  {
  }
}
