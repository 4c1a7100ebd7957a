/** The logger as the source writes it: a probe takes the mutex of the log, prints its line and lets
    go.  Between any two of its steps the other threads may take any steps. */
module ProbeCode {
  import opened Common
  import opened TracerIR
  import opened LogText
  import opened ProbeLog

  /** Runs and their views extend at the end. */
  lemma {:induction false} RunSnoc(s: State, v: View, moves: seq<nat>, t: nat)
    requires ValidRun(s, moves) && Enabled(Run(s, moves), t)
    ensures ValidRun(s, moves + [t]) && Run(s, moves + [t]) == Next(Run(s, moves), t)
    ensures RunView(s, v, moves + [t]) == NextView(Run(s, moves), RunView(s, v, moves), t)
    decreases |moves|
  {
    hide Enabled, Next, NextView;
    if moves == [] {
      assert moves + [t] == [t] && [t][1..] == [];
    } else {
      RunSnoc(Next(s, moves[0]), NextView(s, v, moves[0]), moves[1..], t);
      assert (moves + [t])[1..] == moves[1..] + [t] && (moves + [t])[0] == moves[0];
    }
  }

  /** A step of thread u leaves thread t, and what t has in the log, alone. */
  lemma OtherThread(s: State, v: View, u: nat, t: nat)
    requires Enabled(s, u) && Inv(s, v) && t < |s.threads| && t != u
    ensures |Next(s, u).threads| == |s.threads| && Next(s, u).threads[t] == s.threads[t]
    ensures Projection(NextView(s, v, u).entries, t) == Projection(v.entries, t)
    ensures s.printer == Some(t) ==> Next(s, u).printer == Some(t) && Next(s, u).log == s.log
  {
    if s.threads[u].phase.Ready? {
      var es := NextView(s, v, u).entries;
      assert es[..|es| - 1] == v.entries;
    }
  }

  // ----- scripts are finite, so all runs are

  /** The steps the thread's actions from n on take, at most. */
  ghost function Todo(th: Thread, n: nat): nat
    decreases |th.script| - n
  {
    if n >= |th.script| then 0 else |Line(th.id, th.script[n].record)| + 3 + Todo(th, n + 1)
  }

  ghost function Work(th: Thread): nat {
    match th.phase
    case Ready => Todo(th, th.pc)
    case Printing(left) => |left| + 2 + Todo(th, th.pc + 1)
    case Locking => 1 + Todo(th, th.pc + 1)
  }

  ghost function Works(s: State): (r: seq<nat>)
    ensures |r| == |s.threads|
  {
    seq(|s.threads|, t requires 0 <= t < |s.threads| => Work(s.threads[t]))
  }

  ghost function Measure(s: State): nat { Sum(Works(s)) }

  lemma {:induction false} TodoSame(a: Thread, b: Thread, n: nat)
    requires a.id == b.id && a.script == b.script
    ensures Todo(a, n) == Todo(b, n)
    decreases |a.script| - n
  {
    if n < |a.script| {
      TodoSame(a, b, n + 1);
    }
  }

  /** Every step of every thread brings the end nearer. */
  lemma StepLowersMeasure(s: State, t: nat)
    requires Enabled(s, t)
    ensures Measure(Next(s, t)) < Measure(s)
  {
    StepLowersWork(s, t);
    hide Next, Enabled, Work;
    SumDrops(Works(s), Works(Next(s, t)), t, 1);
  }

  /** How a step moves the thread that takes it. */
  ghost predicate Moves(th: Thread, th': Thread) {
    && th'.id == th.id && th'.script == th.script && th.pc < |th.script|
    && match th.phase
       case Ready => th'.pc == th.pc && th'.phase == Printing(Line(th.id, th.script[th.pc].record))
       case Printing(left) =>
         if left != "" then th'.pc == th.pc && th'.phase == Printing(left[1..])
         else (th'.pc == th.pc + 1 && th'.phase == Ready) || (th'.pc == th.pc && th'.phase == Locking)
       case Locking => th'.pc == th.pc + 1 && th'.phase == Ready
  }

  lemma StepMoves(s: State, t: nat)
    requires Enabled(s, t)
    ensures |Next(s, t).threads| == |s.threads| && Moves(s.threads[t], Next(s, t).threads[t])
    ensures forall u :: 0 <= u < |s.threads| && u != t ==> Next(s, t).threads[u] == s.threads[u]
  {
  }

  lemma MoveLowersWork(th: Thread, th': Thread)
    requires Moves(th, th')
    ensures Work(th') < Work(th)
  {
    hide Line, Todo;
    TodoSame(th, th', th.pc + 1);
    TodoAt(th, th.pc);
  }

  lemma TodoAt(th: Thread, n: nat)
    requires n < |th.script|
    ensures Todo(th, n) == |Line(th.id, th.script[n].record)| + 3 + Todo(th, n + 1)
  {
    hide Line;
  }

  lemma StepLowersWork(s: State, t: nat)
    requires Enabled(s, t)
    ensures |Next(s, t).threads| == |s.threads| && Work(Next(s, t).threads[t]) < Work(s.threads[t])
    ensures forall u :: 0 <= u < |s.threads| && u != t ==> Next(s, t).threads[u] == s.threads[u]
  {
    StepMoves(s, t);
    hide Next, Enabled, Moves, Work;
    MoveLowersWork(s.threads[t], Next(s, t).threads[t]);
  }

  /** However many threads write to the log and take locks, a run takes at most as many steps as their
      scripts need. */
  lemma {:induction false} RunsAreBounded(s: State, moves: seq<nat>)
    requires ValidRun(s, moves)
    ensures Measure(Run(s, moves)) + |moves| <= Measure(s)
    decreases |moves|
  {
    hide Measure, Next, Enabled;
    if moves != [] {
      StepLowersMeasure(s, moves[0]);
      RunsAreBounded(Next(s, moves[0]), moves[1..]);
    }
  }

  class Logger {
    var threads: seq<Thread>
    var printer: Option<nat>
    var log: string
    var holders: map<LockId, Holder>
    ghost var view: View
    ghost const start: State
    ghost var history: seq<nat>

    function Snapshot(): State
      reads this
    {
      State(threads, printer, log, holders)
    }

    /** The fields were reached from an empty log by the moves in `history`. */
    ghost predicate Valid()
      reads this
    {
      && Initial(start) && ValidRun(start, history) && Run(start, history) == Snapshot()
      && RunView(start, EmptyView(), history) == view
      && Inv(Snapshot(), view)
    }

    constructor (threads: seq<Thread>)
      requires Initial(State(threads, None, "", map[]))
      ensures Valid() && this.threads == threads && log == "" && view == EmptyView() && history == []
    {
      this.threads, printer, log, holders := threads, None, "", map[];
      start, view, history := State(threads, None, "", map[]), EmptyView(), [];
      new;
      InitialInv(start);
    }

    ghost method Record(s: State, t: nat)
      requires Initial(start) && ValidRun(start, history) && Run(start, history) == s
      requires RunView(start, EmptyView(), history) == view && Inv(s, view)
      requires Enabled(s, t) && Next(s, t) == Snapshot()
      modifies `history, `view
      ensures Valid() && history == old(history) + [t] && view == NextView(s, old(view), t)
    {
      hide Inv, Next, NextView, Enabled, Initial;
      ProbeLog.StepSafe(s, view, t);
      RunSnoc(start, EmptyView(), history, t);
      view, history := NextView(s, view, t), history + [t];
    }

    /** A step of another thread, taken from the machine. */
    method OtherStep(t: nat, u: nat)
      requires Valid() && Enabled(Snapshot(), u) && t < |threads| && t != u
      modifies this
      ensures Valid() && history == old(history) + [u] && Snapshot() == Next(old(Snapshot()), u)
      ensures |threads| == old(|threads|) && threads[t] == old(threads[t])
      ensures Projection(view.entries, t) == old(Projection(view.entries, t))
      ensures old(printer) == Some(t) ==> printer == Some(t) && log == old(log)
      ensures Measure(Snapshot()) < old(Measure(Snapshot()))
    {
      hide Inv, Next, NextView, Initial, Projection, Run, RunView, ValidRun, Measure;
      ghost var s := Snapshot();
      OtherThread(s, view, u, t);
      StepLowersMeasure(s, u);
      var s' := Next(Snapshot(), u);
      threads, printer, log, holders := s'.threads, s'.printer, s'.log, s'.holders;
      Record(s, u);
    }

    /** The other threads take the given steps, as far as they can. */
    method Others(t: nat, moves: seq<nat>)
      requires Valid() && t < |threads|
      modifies this
      ensures Valid() && old(history) <= history
      ensures |threads| == old(|threads|) && threads[t] == old(threads[t])
      ensures Projection(view.entries, t) == old(Projection(view.entries, t))
      ensures old(printer) == Some(t) ==> printer == Some(t) && log == old(log)
      ensures moves == [] ==> Snapshot() == old(Snapshot())
      ensures Measure(Snapshot()) <= old(Measure(Snapshot()))
    {
      hide Inv, Next, NextView, Enabled, Initial, Projection, Measure;
      for i := 0 to |moves|
        invariant Valid() && old(history) <= history
        invariant |threads| == old(|threads|) && t < |threads| && threads[t] == old(threads[t])
        invariant Projection(view.entries, t) == old(Projection(view.entries, t))
        invariant old(printer) == Some(t) ==> printer == Some(t) && log == old(log)
        invariant moves == [] ==> Snapshot() == old(Snapshot())
        invariant Measure(Snapshot()) <= old(Measure(Snapshot()))
      {
        if moves[i] != t && Enabled(Snapshot(), moves[i]) {
          OtherStep(t, moves[i]);
        }
      }
    }

    /** `pthread_mutex_lock(&fp_lock)` waits until nobody is printing.  Meanwhile the other threads may do
        anything, and when one lets go of the mutex another may get it first; the wait ends because the
        scripts of the others are finite. */
    method AwaitLog(t: nat, env: nat -> seq<nat>)
      requires Valid() && t < |threads| && threads[t].phase.Ready?
      modifies this
      ensures Valid() && old(history) <= history && |threads| == old(|threads|) && threads[t] == old(threads[t])
      ensures Projection(view.entries, t) == old(Projection(view.entries, t))
      ensures printer == None
      ensures (forall tick :: env(tick) == []) && old(printer) == None ==> log == old(log)
    {
      hide Inv, Next, NextView, Enabled, Initial, Projection, Run, RunView, ValidRun, Measure;
      Others(t, env(0));
      var tick := 1;
      while printer.Some?
        invariant Valid() && old(history) <= history
        invariant |threads| == old(|threads|) && t < |threads| && threads[t] == old(threads[t])
        invariant Projection(view.entries, t) == old(Projection(view.entries, t))
        invariant (forall tick :: env(tick) == []) && old(printer) == None ==> printer == None && log == old(log)
        decreases Measure(Snapshot())
      {
        PrinterMoves(Snapshot(), view, printer.value, t);
        OtherStep(t, printer.value);
        Others(t, env(tick));
        tick := tick + 1;
      }
    }

    /** The mutex is taken, and `fprintf` begins with the line of the thread's next record. */
    method LockLog(t: nat)
      requires Valid() && t < |threads| && printer == None
      requires threads[t].phase.Ready? && threads[t].pc < |threads[t].script|
      modifies this
      ensures Valid() && history == old(history) + [t] && |threads| == old(|threads|)
      ensures var th := old(threads[t]);
              && threads[t] == th.(phase := Printing(Line(th.id, th.script[th.pc].record)))
              && Projection(view.entries, t) == old(Projection(view.entries, t)) + [th.script[th.pc]]
      ensures printer == Some(t) && log == old(log)
    {
      ghost var s, v := Snapshot(), view;
      var th := threads[t];
      printer, threads := Some(t), threads[t := th.(phase := Printing(Line(th.id, th.script[th.pc].record)))];
      Announces(s, v, t);
      assert Next(s, t) == Snapshot();
      hide Inv, NextView, Initial, Projection, Line;
      Record(s, t);
    }

    /** `fprintf` puts out one more character. */
    method PrintChar(t: nat)
      requires Valid() && t < |threads| && threads[t].phase.Printing? && threads[t].phase.left != ""
      modifies this
      ensures Valid() && history == old(history) + [t] && |threads| == old(|threads|) && view == old(view)
      ensures var left := old(threads[t]).phase.left;
              log == old(log) + [left[0]] && threads[t] == old(threads[t]).(phase := Printing(left[1..]))
      ensures printer == old(printer)
    {
      ghost var s := Snapshot();
      AtAction(s, view, t);
      var left := threads[t].phase.left;
      log, threads := log + [left[0]], threads[t := threads[t].(phase := Printing(left[1..]))];
      hide Inv, Initial;
      Record(s, t);
    }

    /** `pthread_mutex_unlock(&fp_lock)`. */
    method UnlockLog(t: nat)
      requires Valid() && t < |threads| && threads[t].phase == Printing("")
      modifies this
      ensures Valid() && history == old(history) + [t] && |threads| == old(|threads|) && view == old(view)
      ensures threads[t] == AfterProbe(old(threads[t])) && log == old(log) && printer == None
    {
      ghost var s := Snapshot();
      AtAction(s, view, t);
      printer, threads := None, threads[t := AfterProbe(threads[t])];
      hide Inv, Initial;
      Record(s, t);
    }

    /** `fprintf`: the line comes out in one piece, character by character. */
    method PrintLine(t: nat, env: nat -> seq<nat>)
      requires Valid() && t < |threads| && threads[t].phase.Printing? && printer == Some(t)
      modifies this
      ensures Valid() && old(history) <= history && |threads| == old(|threads|) && printer == Some(t)
      ensures threads[t] == old(threads[t]).(phase := Printing("")) && log == old(log) + old(threads[t]).phase.left
      ensures Projection(view.entries, t) == old(Projection(view.entries, t))
    {
      hide Inv, Initial, Run, RunView, ValidRun, Projection;
      var tick := 1;
      while threads[t].phase.left != ""
        invariant Valid() && old(history) <= history && |threads| == old(|threads|) && printer == Some(t)
        invariant threads[t].phase.Printing? && threads[t] == old(threads[t]).(phase := threads[t].phase)
        invariant log + threads[t].phase.left == old(log) + old(threads[t]).phase.left
        invariant Projection(view.entries, t) == old(Projection(view.entries, t))
        decreases |threads[t].phase.left|
      {
        PrintChar(t);
        Others(t, env(tick));
        tick := tick + 1;
      }
    }

    /** `_probe_` and `_probe_lock_`: whatever the other threads do meanwhile, the line comes out whole
        and the record is the thread's next one in the log; with nobody else about, the log grows by
        exactly the line.  `env` says what the others do during the wait, `env'` during the print. */
    method Probe(t: nat, env: nat -> seq<nat>, env': nat -> seq<nat>)
      requires Valid() && t < |threads| && threads[t].phase.Ready? && threads[t].pc < |threads[t].script|
      modifies this
      ensures Valid() && old(history) < history && |threads| == old(|threads|)
      ensures threads[t] == AfterProbe(old(threads[t]))
      ensures Projection(view.entries, t) == old(Projection(view.entries, t)) + [old(threads[t].script[threads[t].pc])]
      ensures (forall tick :: env(tick) == [] == env'(tick)) && old(printer) == None ==>
                var th := old(threads[t]); log == old(log) + Line(th.id, th.script[th.pc].record)
      ensures (forall tick :: env(tick) == [] == env'(tick)) && old(printer) == None ==>
                var th := old(threads[t]);
                Fits(th.script[th.pc].record) ==>
                  old(log) <= log && Says(Split(log[|old(log)|..], ','), th.id, th.script[th.pc].record)
    {
      hide Inv, Initial, Run, RunView, ValidRun, Projection, Line, Fits, Says, Split;
      AddedReadsBack(log, threads[t].id, threads[t].script[threads[t].pc].record);
      AwaitLog(t, env);
      LockLog(t);
      PrintLine(t, env');
      UnlockLog(t);
    }
  }

  /** What has been added to the log can be read back. */
  lemma AddedReadsBack(log: string, id: nat, r: Record)
    ensures Fits(r) ==> Says(Split((log + Line(id, r))[|log|..], ','), id, r)
  {
    assert (log + Line(id, r))[|log|..] == Line(id, r);
    if Fits(r) {
      LineReadsBack(id, r);
    }
  }

  /** The thread after its probe: past an access, or about to do the lock operation. */
  function AfterProbe(th: Thread): Thread {
    if th.pc < |th.script| && th.script[th.pc].Access? then th.(pc := th.pc + 1, phase := Ready)
        else th.(phase := Locking)
  }

  lemma AtAction(s: State, v: View, t: nat)
    requires Inv(s, v) && t < |s.threads| && !s.threads[t].phase.Ready?
    ensures s.threads[t].pc < |s.threads[t].script|
    ensures s.threads[t].phase.Printing? ==> s.printer == Some(t) && Enabled(s, t)
  {
    assert InOrder(s, v, t);
  }

  lemma PrinterMoves(s: State, v: View, u: nat, t: nat)
    requires Inv(s, v) && s.printer == Some(u) && t < |s.threads| && s.threads[t].phase.Ready?
    ensures Enabled(s, u) && u != t
  {
    AtAction(s, v, u);
  }

  lemma Announces(s: State, v: View, t: nat)
    requires Enabled(s, t) && s.threads[t].phase.Ready?
    ensures var th := s.threads[t];
            Projection(NextView(s, v, t).entries, t) == Projection(v.entries, t) + [th.script[th.pc]]
  {
    var es := NextView(s, v, t).entries;
    assert es[..|es| - 1] == v.entries;
  }
}
