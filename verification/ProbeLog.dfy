/** Any number of instrumented threads writing to one log (lib/inttrace.c), and the locks they take.

    A thread runs a script of the operations the pass instruments.  A probe takes the log's own mutex,
    prints its line character by character and lets go; the probe for a lock operation comes before
    the operation itself.  A mutex is a reader/writer lock that is only taken for writing. */
module ProbeLog {
  import opened Common
  import opened TracerIR
  import opened LogText

  type LockId = nat

  datatype Action =
    | Access(record: Record)
    | Lock(record: Record, lock: LockId, write: bool)
    | Unlock(record: Record, lock: LockId)

  datatype Phase = Ready | Printing(left: string) | Locking

  datatype Thread = Thread(id: nat, script: seq<Action>, pc: nat, phase: Phase, held: set<LockId>)

  datatype Holder = Writer(thread: nat) | Readers(threads: set<nat>)

  datatype State = State(threads: seq<Thread>, printer: Option<nat>, log: string, holders: map<LockId, Holder>)

  predicate Enabled(s: State, t: nat) {
    && t < |s.threads| && s.threads[t].pc < |s.threads[t].script|
    && match s.threads[t].phase
       case Ready => s.printer.None?
       case Printing(_) => true
       case Locking =>
         (match s.threads[t].script[s.threads[t].pc]
          case Lock(_, l, write) => l !in s.holders || (!write && s.holders[l].Readers?)
          case Unlock(_, _) => true
          case Access(_) => false)
  }

  function Acquired(s: State, t: nat, l: LockId, write: bool): Holder {
    if write then Writer(t)
    else if l in s.holders && s.holders[l].Readers? then Readers(s.holders[l].threads + {t}) else Readers({t})
  }

  function Released(s: State, t: nat, l: LockId): map<LockId, Holder> {
    if l in s.holders && s.holders[l].Readers? && s.holders[l].threads != {t}
    then s.holders[l := Readers(s.holders[l].threads - {t})]
    else s.holders - {l}
  }

  function Next(s: State, t: nat): State
    requires Enabled(s, t)
  {
    var th := s.threads[t];
    var a := th.script[th.pc];
    match th.phase
    case Ready =>
      s.(printer := Some(t), threads := s.threads[t := th.(phase := Printing(Line(th.id, a.record)))])
    case Printing(left) =>
      if left != "" then
        s.(log := s.log + [left[0]], threads := s.threads[t := th.(phase := Printing(left[1..]))])
      else if a.Access? then
        s.(printer := None, threads := s.threads[t := th.(pc := th.pc + 1, phase := Ready)])
      else
        s.(printer := None, threads := s.threads[t := th.(phase := Locking)])
    case Locking =>
      (match a
       case Lock(_, l, write) =>
         s.(holders := s.holders[l := Acquired(s, t, l, write)],
            threads := s.threads[t := th.(pc := th.pc + 1, phase := Ready, held := th.held + {l})])
       case Unlock(_, l) =>
         s.(holders := Released(s, t, l),
            threads := s.threads[t := th.(pc := th.pc + 1, phase := Ready, held := th.held - {l})])
       case Access(_) => s)
  }

  ghost predicate ValidRun(s: State, moves: seq<nat>)
    decreases |moves|
  {
    moves == [] || (Enabled(s, moves[0]) && ValidRun(Next(s, moves[0]), moves[1..]))
  }

  ghost function Run(s: State, moves: seq<nat>): State
    requires ValidRun(s, moves)
    decreases |moves|
  {
    if moves == [] then s else Run(Next(s, moves[0]), moves[1..])
  }

  /** A script that takes only locks it does not hold and releases only locks it holds. */
  predicate WellLocked(script: seq<Action>, held: set<LockId>)
    decreases |script|
  {
    script == [] ||
    (match script[0]
     case Access(_) => WellLocked(script[1..], held)
     case Lock(_, l, _) => l !in held && WellLocked(script[1..], held + {l})
     case Unlock(_, l) => l in held && WellLocked(script[1..], held - {l}))
  }

  predicate Initial(s: State) {
    && s.printer == None && s.log == "" && s.holders == map[]
    && forall t :: 0 <= t < |s.threads| ==>
         var th := s.threads[t]; th.pc == 0 && th.phase == Ready && th.held == {} && WellLocked(th.script, {})
  }

  // ----- history

  /** One line of the log: who printed it and for what, and for every lock the thread held at that
      time the epoch of the lock. */
  datatype Entry = Entry(thread: nat, id: nat, action: Action, epochs: map<LockId, nat>)

  /** The epoch of a lock goes up when a writer comes and when it leaves, so it is odd exactly while
      there is a writer, and every write section has an epoch of its own. */
  datatype View = View(entries: seq<Entry>, epoch: map<LockId, nat>)

  function EpochOf(v: View, l: LockId): nat { if l in v.epoch then v.epoch[l] else 0 }

  function NextView(s: State, v: View, t: nat): View
    requires Enabled(s, t)
  {
    var th := s.threads[t];
    var a := th.script[th.pc];
    match th.phase
    case Ready => v.(entries := v.entries + [Entry(t, th.id, a, map l | l in th.held :: EpochOf(v, l))])
    case Printing(_) => v
    case Locking =>
      if a.Lock? && a.write then v.(epoch := v.epoch[a.lock := EpochOf(v, a.lock) + 1])
      else if a.Unlock? && a.lock in s.holders && s.holders[a.lock].Writer? then
        v.(epoch := v.epoch[a.lock := EpochOf(v, a.lock) + 1])
      else v
  }

  ghost function RunView(s: State, v: View, moves: seq<nat>): View
    requires ValidRun(s, moves)
    decreases |moves|
  {
    if moves == [] then v else RunView(Next(s, moves[0]), NextView(s, v, moves[0]), moves[1..])
  }

  // ----- the lock invariant

  predicate Holds(s: State, l: LockId, t: nat) {
    l in s.holders && (match s.holders[l] case Writer(u) => u == t case Readers(ts) => t in ts)
  }

  ghost predicate HeldOk(s: State) {
    forall t, l :: 0 <= t < |s.threads| ==> (l in s.threads[t].held <==> Holds(s, l, t))
  }

  ghost predicate HoldersOk(s: State) {
    forall l :: l in s.holders ==>
      match s.holders[l]
      case Writer(u) => u < |s.threads|
      case Readers(ts) => ts != {} && forall t :: t in ts ==> t < |s.threads|
  }

  ghost predicate EpochsOk(s: State, v: View) {
    forall l :: EpochOf(v, l) % 2 == 1 <==> l in s.holders && s.holders[l].Writer?
  }

  ghost predicate ScriptsOk(s: State) {
    forall t :: 0 <= t < |s.threads| ==>
      s.threads[t].pc <= |s.threads[t].script| && WellLocked(s.threads[t].script[s.threads[t].pc..], s.threads[t].held)
  }

  ghost predicate LocksOk(s: State, v: View) {
    HeldOk(s) && HoldersOk(s) && EpochsOk(s, v) && ScriptsOk(s)
  }

  // ----- the text of the log

  function Text(entries: seq<Entry>): string {
    if entries == [] then ""
    else Text(entries[..|entries| - 1]) + Line(entries[|entries| - 1].id, entries[|entries| - 1].action.record)
  }

  /** Records are never torn: the log is the concatenation of whole lines, but for the line the holder
      of the log's mutex is printing. */
  ghost predicate TextOk(s: State, v: View) {
    && (match s.printer
        case None => s.log == Text(v.entries)
        case Some(t) =>
          t < |s.threads| && s.threads[t].phase.Printing? && s.log + s.threads[t].phase.left == Text(v.entries))
    && forall t :: 0 <= t < |s.threads| && s.threads[t].phase.Printing? ==> s.printer == Some(t)
  }

  // ----- program order

  /** The actions thread t has in the log. */
  function Projection(entries: seq<Entry>, t: nat): seq<Action> {
    if entries == [] then []
    else
      var last := entries[|entries| - 1];
      Projection(entries[..|entries| - 1], t) + (if last.thread == t then [last.action] else [])
  }

  /** How many actions of the thread have been announced. */
  function Announced(th: Thread): nat { th.pc + (if th.phase.Ready? then 0 else 1) }

  ghost predicate InOrder(s: State, v: View, u: nat)
    requires u < |s.threads|
  {
    && Announced(s.threads[u]) <= |s.threads[u].script|
    && Projection(v.entries, u) == s.threads[u].script[..Announced(s.threads[u])]
  }

  ghost predicate OrderOk(s: State, v: View) {
    forall u :: 0 <= u < |s.threads| ==> InOrder(s, v, u)
  }

  // ----- the sections

  /** The epoch of l noted in e, or -1 if the thread did not hold l. */
  function Tag(e: Entry, l: LockId): int { if l in e.epochs then e.epochs[l] else -1 }

  ghost predicate Known(s: State, es: seq<Entry>) {
    forall k :: 0 <= k < |es| ==> es[k].thread < |s.threads| && es[k].id == s.threads[es[k].thread].id
  }

  ghost predicate Bounded(v: View) {
    forall k, l :: 0 <= k < |v.entries| ==> Tag(v.entries[k], l) <= EpochOf(v, l)
  }

  /** Along the log the epochs of a lock do not go down, and two lines with the same writer's epoch
      are by the same thread. */
  ghost predicate Sorted(es: seq<Entry>) {
    forall i, j, l {:trigger Tag(es[i], l), Tag(es[j], l)} :: 0 <= i < j < |es| && Tag(es[j], l) >= 0 ==>
      && Tag(es[i], l) <= Tag(es[j], l)
      && (Tag(es[i], l) == Tag(es[j], l) && Tag(es[j], l) % 2 == 1 ==> es[i].thread == es[j].thread)
  }

  /** A line with the current epoch of a lock that has a writer is by that writer. */
  ghost predicate Current(s: State, v: View) {
    forall k, l {:trigger Tag(v.entries[k], l)} ::
      0 <= k < |v.entries| && Tag(v.entries[k], l) == EpochOf(v, l) && EpochOf(v, l) % 2 == 1
      ==> l in s.holders && s.holders[l] == Writer(v.entries[k].thread)
  }

  /** An unlock is recorded inside the section it ends, a lock before the section it begins. */
  ghost predicate Placed(es: seq<Entry>) {
    forall k :: 0 <= k < |es| ==>
      && (es[k].action.Unlock? ==> Tag(es[k], es[k].action.lock) >= 0)
      && (es[k].action.Lock? ==> Tag(es[k], es[k].action.lock) == -1)
  }

  ghost predicate SectionsOk(s: State, v: View) {
    Known(s, v.entries) && Bounded(v) && Sorted(v.entries) && Current(s, v) && Placed(v.entries)
  }

  ghost predicate Inv(s: State, v: View) {
    LocksOk(s, v) && TextOk(s, v) && OrderOk(s, v) && SectionsOk(s, v)
  }

  lemma InitialInv(s: State)
    requires Initial(s)
    ensures Inv(s, View([], map[]))
  {
    forall t | 0 <= t < |s.threads| ensures s.threads[t].script[s.threads[t].pc..] == s.threads[t].script {}
  }

  /** The action a thread is at, and what its script allows next. */
  lemma CurrentAction(s: State, t: nat)
    requires ScriptsOk(s) && Enabled(s, t)
    ensures var th := s.threads[t];
            match th.script[th.pc]
            case Access(_) => WellLocked(th.script[th.pc + 1..], th.held)
            case Lock(_, l, _) => l !in th.held && WellLocked(th.script[th.pc + 1..], th.held + {l})
            case Unlock(_, l) => l in th.held && WellLocked(th.script[th.pc + 1..], th.held - {l})
  {
    var th := s.threads[t];
    var rest := th.script[th.pc..];
    assert WellLocked(rest, th.held) && rest[0] == th.script[th.pc] && rest[1..] == th.script[th.pc + 1..];
  }

  lemma StepScripts(s: State, t: nat)
    requires ScriptsOk(s) && Enabled(s, t)
    ensures ScriptsOk(Next(s, t))
  {
    CurrentAction(s, t);
  }

  lemma StepHeld(s: State, t: nat)
    requires ScriptsOk(s) && HeldOk(s) && HoldersOk(s) && Enabled(s, t)
    ensures HeldOk(Next(s, t)) && HoldersOk(Next(s, t))
  {
    CurrentAction(s, t);
    var th := s.threads[t];
    if th.phase.Locking? {
      match th.script[th.pc] {
        case Lock(_, l, write) => AcquireHeld(s, t, l, write);
        case Unlock(_, l) => ReleaseHeld(s, t, l);
        case _ =>
      }
    }
  }

  lemma AcquireHeld(s: State, t: nat, l: LockId, write: bool)
    requires HeldOk(s) && HoldersOk(s) && Enabled(s, t) && s.threads[t].phase.Locking?
    requires s.threads[t].script[s.threads[t].pc].Lock?
    requires s.threads[t].script[s.threads[t].pc].lock == l && s.threads[t].script[s.threads[t].pc].write == write
    ensures HeldOk(Next(s, t)) && HoldersOk(Next(s, t))
  {
    var s' := Next(s, t);
    forall u, k | 0 <= u < |s'.threads| ensures k in s'.threads[u].held <==> Holds(s', k, u) {
      assert k in s.threads[u].held <==> Holds(s, k, u);
    }
  }

  lemma ReleaseHeld(s: State, t: nat, l: LockId)
    requires HeldOk(s) && HoldersOk(s) && Enabled(s, t) && s.threads[t].phase.Locking?
    requires s.threads[t].script[s.threads[t].pc].Unlock? && s.threads[t].script[s.threads[t].pc].lock == l
    requires l in s.threads[t].held
    ensures HeldOk(Next(s, t)) && HoldersOk(Next(s, t))
  {
    var s' := Next(s, t);
    assert Holds(s, l, t);
    forall u, k | 0 <= u < |s'.threads| ensures k in s'.threads[u].held <==> Holds(s', k, u) {
      assert k in s.threads[u].held <==> Holds(s, k, u);
    }
  }

  lemma StepEpochs(s: State, v: View, t: nat)
    requires LocksOk(s, v) && Enabled(s, t)
    ensures EpochsOk(Next(s, t), NextView(s, v, t))
  {
    CurrentAction(s, t);
    var s', v', th := Next(s, t), NextView(s, v, t), s.threads[t];
    if th.phase.Locking? && th.script[th.pc].Unlock? {
      assert Holds(s, th.script[th.pc].lock, t);
    }
    forall l ensures EpochOf(v', l) % 2 == 1 <==> l in s'.holders && s'.holders[l].Writer? {
      assert EpochOf(v, l) % 2 == 1 <==> l in s.holders && s.holders[l].Writer?;
    }
  }

  lemma StepLocks(s: State, v: View, t: nat)
    requires LocksOk(s, v) && Enabled(s, t)
    ensures LocksOk(Next(s, t), NextView(s, v, t))
  {
    StepScripts(s, t);
    StepHeld(s, t);
    StepEpochs(s, v, t);
  }

  lemma StepText(s: State, v: View, t: nat)
    requires TextOk(s, v) && Enabled(s, t)
    ensures TextOk(Next(s, t), NextView(s, v, t))
  {
    match s.threads[t].phase {
      case Ready => TextStart(s, v, t);
      case Printing(left) => TextPrint(s, v, t);
      case Locking => assert s.printer != Some(t);
    }
  }

  lemma TextStart(s: State, v: View, t: nat)
    requires TextOk(s, v) && Enabled(s, t) && s.threads[t].phase.Ready?
    ensures TextOk(Next(s, t), NextView(s, v, t))
  {
    var v' := NextView(s, v, t);
    assert v'.entries[..|v'.entries| - 1] == v.entries;
  }

  lemma TextPrint(s: State, v: View, t: nat)
    requires TextOk(s, v) && Enabled(s, t) && s.threads[t].phase.Printing?
    ensures TextOk(Next(s, t), NextView(s, v, t))
  {
    var left := s.threads[t].phase.left;
    assert s.printer == Some(t);
    if left != "" {
      assert (s.log + [left[0]]) + left[1..] == s.log + left;
    } else {
      assert s.log + left == s.log;
    }
  }

  lemma StepOrder(s: State, v: View, t: nat)
    requires OrderOk(s, v) && Enabled(s, t)
    ensures OrderOk(Next(s, t), NextView(s, v, t))
  {
    forall u | 0 <= u < |Next(s, t).threads| ensures InOrder(Next(s, t), NextView(s, v, t), u) {
      if s.threads[t].phase.Ready? {
        OrderStart(s, v, t, u);
      } else {
        OrderKept(s, v, t, u);
      }
    }
  }

  lemma OrderStart(s: State, v: View, t: nat, u: nat)
    requires Enabled(s, t) && s.threads[t].phase.Ready? && u < |s.threads| && InOrder(s, v, u)
    ensures |Next(s, t).threads| == |s.threads| && InOrder(Next(s, t), NextView(s, v, t), u)
  {
    var es, th := NextView(s, v, t).entries, s.threads[t];
    assert es[..|es| - 1] == v.entries;
    assert th.script[..th.pc + 1] == th.script[..th.pc] + [th.script[th.pc]];
  }

  lemma OrderKept(s: State, v: View, t: nat, u: nat)
    requires Enabled(s, t) && !s.threads[t].phase.Ready? && u < |s.threads| && InOrder(s, v, u)
    ensures |Next(s, t).threads| == |s.threads| && InOrder(Next(s, t), NextView(s, v, t), u)
  {
    assert Announced(Next(s, t).threads[t]) == Announced(s.threads[t]);
  }

  /** The entry a thread adds when it starts printing. */
  function NewEntry(s: State, v: View, t: nat): Entry
    requires Enabled(s, t)
  {
    var th := s.threads[t];
    Entry(t, th.id, th.script[th.pc], map l | l in th.held :: EpochOf(v, l))
  }

  lemma NewEntryTags(s: State, v: View, t: nat)
    requires LocksOk(s, v) && Enabled(s, t)
    ensures var e := NewEntry(s, v, t);
            && (forall l :: Tag(e, l) == -1 || Tag(e, l) == EpochOf(v, l))
            && (forall l :: Tag(e, l) >= 0 && EpochOf(v, l) % 2 == 1 ==> l in s.holders && s.holders[l] == Writer(t))
            && (e.action.Unlock? ==> Tag(e, e.action.lock) >= 0)
            && (e.action.Lock? ==> Tag(e, e.action.lock) == -1)
  {
    CurrentAction(s, t);
    forall l | l in s.threads[t].held && EpochOf(v, l) % 2 == 1 ensures l in s.holders && s.holders[l] == Writer(t) {
      assert Holds(s, l, t);
    }
  }

  lemma SectionsAppend(s: State, v: View, t: nat)
    requires SectionsOk(s, v) && LocksOk(s, v) && Enabled(s, t) && s.threads[t].phase.Ready?
    ensures SectionsOk(Next(s, t), NextView(s, v, t))
  {
    var e := NewEntry(s, v, t);
    NewEntryTags(s, v, t);
    SortedAppend(s, v, e);
    CurrentAppend(s, v, e);
    BoundedAppend(v, e);
    KeepsHolders(s, v, t);
    assert NextView(s, v, t) == v.(entries := v.entries + [e]);
    assert Current(Next(s, t), NextView(s, v, t));
  }

  lemma BoundedAppend(v: View, e: Entry)
    requires Bounded(v) && forall l :: Tag(e, l) == -1 || Tag(e, l) == EpochOf(v, l)
    ensures Bounded(v.(entries := v.entries + [e]))
  {
    var w := v.(entries := v.entries + [e]);
    forall k, l | 0 <= k < |w.entries| ensures Tag(w.entries[k], l) <= EpochOf(w, l) {
      assert EpochOf(w, l) == EpochOf(v, l);
      if k < |v.entries| {
        assert Tag(v.entries[k], l) <= EpochOf(v, l);
      } else {
        assert w.entries[k] == e;
      }
    }
  }

  lemma SortedAppend(s: State, v: View, e: Entry)
    requires Bounded(v) && Sorted(v.entries) && Current(s, v)
    requires forall l :: Tag(e, l) == -1 || Tag(e, l) == EpochOf(v, l)
    requires forall l :: Tag(e, l) >= 0 && EpochOf(v, l) % 2 == 1 ==> l in s.holders && s.holders[l] == Writer(e.thread)
    ensures Sorted(v.entries + [e])
  {
    var es := v.entries + [e];
    forall i, j, l | 0 <= i < j < |es| && Tag(es[j], l) >= 0
      ensures Tag(es[i], l) <= Tag(es[j], l)
      ensures Tag(es[i], l) == Tag(es[j], l) && Tag(es[j], l) % 2 == 1 ==> es[i].thread == es[j].thread
    {
      assert es[i] == v.entries[i];
      assert Tag(v.entries[i], l) <= EpochOf(v, l);
      if j < |v.entries| {
        assert es[j] == v.entries[j];
      }
    }
  }

  lemma CurrentAppend(s: State, v: View, e: Entry)
    requires Current(s, v)
    requires forall l :: Tag(e, l) >= 0 && EpochOf(v, l) % 2 == 1 ==> l in s.holders && s.holders[l] == Writer(e.thread)
    ensures Current(s, v.(entries := v.entries + [e]))
  {
    var es := v.entries + [e];
    forall k, l | 0 <= k < |es| && Tag(es[k], l) == EpochOf(v, l) && EpochOf(v, l) % 2 == 1
      ensures l in s.holders && s.holders[l] == Writer(es[k].thread)
    {
      if k < |v.entries| {
        assert es[k] == v.entries[k];
      }
    }
  }

  /** Outside lock operations holders and epochs stay. */
  lemma KeepsHolders(s: State, v: View, t: nat)
    requires Enabled(s, t) && !s.threads[t].phase.Locking?
    ensures Next(s, t).holders == s.holders && NextView(s, v, t).epoch == v.epoch
    ensures |Next(s, t).threads| == |s.threads|
    ensures forall u :: 0 <= u < |s.threads| ==> Next(s, t).threads[u].id == s.threads[u].id
  {
  }

  /** A lock operation may raise an epoch; where it does not and there is a writer, the writer stays. */
  lemma EpochGrows(s: State, v: View, t: nat, l: LockId)
    requires LocksOk(s, v) && Enabled(s, t) && s.threads[t].phase.Locking?
    ensures var s', v' := Next(s, t), NextView(s, v, t);
            && EpochOf(v', l) >= EpochOf(v, l)
            && (EpochOf(v', l) == EpochOf(v, l) && EpochOf(v, l) % 2 == 1
                ==> l in s.holders && l in s'.holders && s'.holders[l] == s.holders[l])
  {
    CurrentAction(s, t);
    var th := s.threads[t];
    assert EpochOf(v, l) % 2 == 1 <==> l in s.holders && s.holders[l].Writer?;
    if th.script[th.pc].Unlock? {
      assert Holds(s, th.script[th.pc].lock, t);
    }
  }

  lemma LockingKeepsThreads(s: State, v: View, t: nat)
    requires Enabled(s, t) && s.threads[t].phase.Locking?
    ensures NextView(s, v, t).entries == v.entries
    ensures |Next(s, t).threads| == |s.threads|
    ensures forall u :: 0 <= u < |s.threads| ==> Next(s, t).threads[u].id == s.threads[u].id
  {
  }

  lemma SectionsLocking(s: State, v: View, t: nat)
    requires SectionsOk(s, v) && LocksOk(s, v) && Enabled(s, t) && s.threads[t].phase.Locking?
    ensures SectionsOk(Next(s, t), NextView(s, v, t))
  {
    LockingKeepsThreads(s, v, t);
    forall l
      ensures EpochOf(NextView(s, v, t), l) >= EpochOf(v, l)
      ensures EpochOf(NextView(s, v, t), l) == EpochOf(v, l) && EpochOf(v, l) % 2 == 1
              ==> l in s.holders && l in Next(s, t).holders && Next(s, t).holders[l] == s.holders[l]
    {
      EpochGrows(s, v, t, l);
    }
    SectionsCarryOver(s, v, Next(s, t), NextView(s, v, t));
  }

  lemma SectionsCarryOver(s: State, v: View, s': State, v': View)
    requires SectionsOk(s, v) && v'.entries == v.entries
    requires |s'.threads| == |s.threads| && forall u :: 0 <= u < |s.threads| ==> s'.threads[u].id == s.threads[u].id
    requires forall l :: EpochOf(v', l) >= EpochOf(v, l)
    requires forall l :: EpochOf(v', l) == EpochOf(v, l) && EpochOf(v, l) % 2 == 1
                         ==> l in s.holders && l in s'.holders && s'.holders[l] == s.holders[l]
    ensures SectionsOk(s', v')
  {
    forall k, l | 0 <= k < |v.entries|
      ensures Tag(v.entries[k], l) <= EpochOf(v', l)
      ensures Tag(v.entries[k], l) == EpochOf(v', l) && EpochOf(v', l) % 2 == 1
              ==> l in s'.holders && s'.holders[l] == Writer(v.entries[k].thread)
    {
      assert Tag(v.entries[k], l) <= EpochOf(v, l);
    }
  }

  lemma StepSections(s: State, v: View, t: nat)
    requires SectionsOk(s, v) && LocksOk(s, v) && Enabled(s, t)
    ensures SectionsOk(Next(s, t), NextView(s, v, t))
  {
    match s.threads[t].phase {
      case Ready => SectionsAppend(s, v, t);
      case Locking => SectionsLocking(s, v, t);
      case Printing(_) =>
        assert NextView(s, v, t) == v && Next(s, t).holders == s.holders;
        SectionsKept(s, Next(s, t), v);
    }
  }

  /** Sections depend on who the threads are and who holds which lock only. */
  lemma SectionsKept(s: State, t: State, v: View)
    requires SectionsOk(s, v) && t.holders == s.holders && |t.threads| == |s.threads|
    requires forall u :: 0 <= u < |s.threads| ==> t.threads[u].id == s.threads[u].id
    ensures SectionsOk(t, v)
  {
  }

  lemma StepSafe(s: State, v: View, t: nat)
    requires Inv(s, v) && Enabled(s, t)
    ensures Inv(Next(s, t), NextView(s, v, t))
  {
    StepLocks(s, v, t);
    StepText(s, v, t);
    StepOrder(s, v, t);
    StepSections(s, v, t);
  }

  lemma {:induction false} RunSafe(s: State, v: View, moves: seq<nat>)
    requires Inv(s, v) && ValidRun(s, moves)
    ensures Inv(Run(s, moves), RunView(s, v, moves))
    decreases |moves|
  {
    if moves != [] {
      StepSafe(s, v, moves[0]);
      RunSafe(Next(s, moves[0]), NextView(s, v, moves[0]), moves[1..]);
    }
  }

  // ----- results

  function EmptyView(): View { View([], map[]) }

  /** In every run of any number of threads: as soon as nobody is printing, the log is exactly the
      concatenation of the lines of the announced records, and a thread's records are the beginning
      of its script, in program order. */
  lemma LogIsInterleaving(s: State, moves: seq<nat>)
    requires Initial(s) && ValidRun(s, moves)
    ensures var t, v := Run(s, moves), RunView(s, EmptyView(), moves);
            && (t.printer.None? ==> t.log == Text(v.entries))
            && OrderOk(t, v)
            && (forall k :: 0 <= k < |v.entries| ==>
                  v.entries[k].thread < |t.threads| && v.entries[k].id == t.threads[v.entries[k].thread].id)
  {
    InitialInv(s);
    RunSafe(s, EmptyView(), moves);
  }

  /** The log respects mutual exclusion.  If lines i and k were printed in the same write section of
      lock l, then every line between them that was printed inside any section of l, for reading or
      for writing, belongs to that same section and hence to the same thread. */
  lemma WriteSectionsAreIsolated(s: State, moves: seq<nat>, l: LockId, i: nat, j: nat, k: nat)
    requires Initial(s) && ValidRun(s, moves)
    requires var es := RunView(s, EmptyView(), moves).entries;
             i < j < k < |es| && Tag(es[i], l) == Tag(es[k], l) >= 0 && Tag(es[i], l) % 2 == 1 && Tag(es[j], l) >= 0
    ensures var es := RunView(s, EmptyView(), moves).entries;
            Tag(es[j], l) == Tag(es[i], l) && es[j].thread == es[i].thread == es[k].thread
  {
    InitialInv(s);
    RunSafe(s, EmptyView(), moves);
    Between(RunView(s, EmptyView(), moves).entries, l, i, j, k);
  }

  lemma Between(es: seq<Entry>, l: LockId, i: nat, j: nat, k: nat)
    requires Sorted(es) && i < j < k < |es|
    requires Tag(es[i], l) == Tag(es[k], l) >= 0 && Tag(es[i], l) % 2 == 1 && Tag(es[j], l) >= 0
    ensures Tag(es[j], l) == Tag(es[i], l) && es[j].thread == es[i].thread == es[k].thread
  {
    assert Tag(es[i], l) <= Tag(es[j], l);
    assert Tag(es[j], l) <= Tag(es[k], l);
  }

  /** The record of an unlock lies inside the section it ends; the record of a lock lies outside the
      section it begins, so it may appear while another thread is still inside. */
  lemma LockRecordsPlaced(s: State, moves: seq<nat>, k: nat)
    requires Initial(s) && ValidRun(s, moves) && k < |RunView(s, EmptyView(), moves).entries|
    ensures var e := RunView(s, EmptyView(), moves).entries[k];
            && (e.action.Unlock? ==> Tag(e, e.action.lock) >= 0)
            && (e.action.Lock? ==> Tag(e, e.action.lock) == -1)
  {
    InitialInv(s);
    RunSafe(s, EmptyView(), moves);
  }

  // ----- mutexes

  /** No script takes l for reading. */
  predicate IsMutex(s: State, l: LockId) {
    forall t, n :: 0 <= t < |s.threads| && 0 <= n < |s.threads[t].script| ==>
      (s.threads[t].script[n].Lock? && s.threads[t].script[n].lock == l ==> s.threads[t].script[n].write)
  }

  ghost predicate MutexOk(s: State, v: View, l: LockId) {
    && IsMutex(s, l)
    && (l in s.holders ==> s.holders[l].Writer?)
    && forall k :: 0 <= k < |v.entries| ==> Tag(v.entries[k], l) == -1 || Tag(v.entries[k], l) % 2 == 1
  }

  lemma StepMutex(s: State, v: View, t: nat, l: LockId)
    requires Inv(s, v) && MutexOk(s, v, l) && Enabled(s, t)
    ensures MutexOk(Next(s, t), NextView(s, v, t), l)
  {
    var s', v', th := Next(s, t), NextView(s, v, t), s.threads[t];
    assert forall u :: 0 <= u < |s.threads| ==> s'.threads[u].script == s.threads[u].script;
    if th.phase.Ready? && l in th.held {
      assert Holds(s, l, t);
      assert EpochOf(v, l) % 2 == 1;
    }
  }

  lemma {:induction false} RunMutex(s: State, v: View, moves: seq<nat>, l: LockId)
    requires Inv(s, v) && MutexOk(s, v, l) && ValidRun(s, moves)
    ensures MutexOk(Run(s, moves), RunView(s, v, moves), l)
    decreases |moves|
  {
    if moves != [] {
      StepSafe(s, v, moves[0]);
      StepMutex(s, v, moves[0], l);
      RunMutex(Next(s, moves[0]), NextView(s, v, moves[0]), moves[1..], l);
    }
  }

  /** For a mutex every section is a write section: the in-section lines of one section, up to and
      including its unlock, are never interleaved with another thread's in-section lines. */
  lemma MutexSectionsAreIsolated(s: State, moves: seq<nat>, l: LockId, i: nat, j: nat, k: nat)
    requires Initial(s) && ValidRun(s, moves) && IsMutex(s, l)
    requires var es := RunView(s, EmptyView(), moves).entries;
             i < j < k < |es| && Tag(es[i], l) >= 0 && Tag(es[i], l) == Tag(es[k], l) && Tag(es[j], l) >= 0
    ensures var es := RunView(s, EmptyView(), moves).entries;
            es[j].thread == es[i].thread == es[k].thread
  {
    InitialInv(s);
    RunMutex(s, EmptyView(), moves, l);
    WriteSectionsAreIsolated(s, moves, l, i, j, k);
  }
}
