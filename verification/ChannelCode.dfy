/** Sender, receiver and the part they share, as the source writes them.  Between any two accesses
    the environment may let the other side move and others close the channel. */
module ChannelCode {
  import opened Common
  import opened ChannelWord
  import opened ChannelMachine
  import opened ChannelSafety

  datatype SendResult<T> = SendOk | SendErr(value: T) | SendPanicked
  datatype RecvResult<T> = Got(value: T) | ConsumeValueFailed | ChannelClosed | NotCompleteNotClosed | NotReferencable

  datatype Side = SenderSide | ReceiverSide

  /** A move that is not the given side's own. */
  predicate ByOthers<T>(side: Side, m: Move<T>) {
    m.Close? || (if side == SenderSide then m.ReceiverStep? || m.DropReceiver?
                 else m.Send? || m.SenderStep? || m.DropSender?)
  }

  /** Nobody calls close() while the call runs. */
  ghost predicate NoCloses<T>(env: nat -> seq<Move<T>>) {
    forall tick :: Close !in env(tick)
  }

  /** Flags that are up stay up. */
  predicate StayUp(f: Flags, g: Flags) {
    (f.sent ==> g.sent) && (f.closed ==> g.closed)
  }

  class Inner<T> {
    var state: Word
    var value: Option<T>
    var sender: Sender<T>
    var receiver: Receiver<T>
    const order: Order
    ghost const start: State<T>
    ghost var history: seq<Move<T>>

    ghost function Snapshot(): State<T>
      reads this
    {
      State(FlagsOf(state), value, sender, receiver)
    }

    /** The fields were reached from a fresh channel by the moves in `history`. */
    ghost predicate Valid()
      reads this
    {
      && Fresh(start) && ValidRun(order, start, history) && Run(order, start, history) == Snapshot()
      && Always(Snapshot()) && Accounted(Snapshot(), Offered(history))
    }

    constructor (order: Order, state: Word)
      requires !FlagsOf(state).sent
      ensures Valid() && this.order == order && this.state == state && history == []
      ensures value == None && sender == SenderIdle && receiver == ReceiverIdle
    {
      this.order, this.state, value, sender, receiver := order, state, None, SenderIdle, ReceiverIdle;
      start, history := State(FlagsOf(state), None, SenderIdle, ReceiverIdle), [];
    }

    ghost method Record(s: State<T>, m: Move<T>)
      requires Fresh(start) && ValidRun(order, start, history) && Run(order, start, history) == s
      requires Always(s) && Accounted(s, Offered(history))
      requires Enabled(s, m) && Next(order, s, m) == Snapshot()
      modifies `history
      ensures Valid() && history == old(history) + [m] && Offered(history) == Offered(old(history)) + OfferedBy(m)
    {
      hide Always, Next, Enabled, Accounted;
      StepAlways(order, s, m);
      StepAccounted(order, s, m, Offered(history));
      RunCons(order, s, m, []);
      RunAppend(order, start, history, [m]);
      OfferedAppend(history, m);
      history := history + [m];
    }

    /** fetch_or: set one flag and return the flags before. */
    method FetchOr(op: FetchOr) returns (prev: Flags)
      modifies `state
      ensures state == SetWord(old(state), op)
      ensures prev == FlagsOf(old(state)) && FlagsOf(state) == SetFlag(prev, op)
    {
      FetchOrRefines(state, op);
      prev := FlagsOf(state);
      state := SetWord(state, op);
    }

    /** Another party's step, taken from the machine. */
    method OtherMove(side: Side, m: Move<T>)
      requires Valid() && ByOthers(side, m) && Enabled(Snapshot(), m)
      modifies this
      ensures Valid() && history == old(history) + [m]
      ensures Snapshot() == Next(order, old(Snapshot()), m)
      ensures side == SenderSide ==> sender == old(sender) && Offered(history) == Offered(old(history))
      ensures side == ReceiverSide ==> receiver == old(receiver)
      ensures StayUp(FlagsOf(old(state)), FlagsOf(state))
    {
      ghost var s := Snapshot();
      var flags := FlagsOf(state);
      var t := Next(order, State(flags, value, sender, receiver), m);
      value, sender, receiver := t.cell, t.sender, t.receiver;
      NextFlags(order, s, m);
      if t.flags.closed && !flags.closed {
        var prev := FetchOr(SetClosed);
      } else if t.flags.sent && !flags.sent {
        var prev := FetchOr(SetComplete);
      }
      assert FlagsOf(state) == t.flags;
      OthersLeave(order, s, side, m);
      Record(s, m);
      assert side == SenderSide ==> Offered(old(history)) + OfferedBy(m) == Offered(old(history));
    }

    /** The other parties take the given moves, as far as they can. */
    method Interfere(side: Side, moves: seq<Move<T>>)
      requires Valid()
      modifies this
      ensures Valid() && old(history) <= history
      ensures side == SenderSide ==> sender == old(sender) && Offered(history) == Offered(old(history))
      ensures side == ReceiverSide ==> receiver == old(receiver)
      ensures StayUp(FlagsOf(old(state)), FlagsOf(state))
      ensures old(Exclusive(order, Snapshot())) && (order == ClosedFirst || Close !in moves)
              ==> Exclusive(order, Snapshot())
    {
      for i := 0 to |moves|
        invariant Valid() && old(history) <= history
        invariant side == SenderSide ==> sender == old(sender) && Offered(history) == Offered(old(history))
        invariant side == ReceiverSide ==> receiver == old(receiver)
        invariant StayUp(FlagsOf(old(state)), FlagsOf(state))
        invariant old(Exclusive(order, Snapshot())) && (order == ClosedFirst || Close !in moves)
                  ==> Exclusive(order, Snapshot())
      {
        var m := moves[i];
        if ByOthers(side, m) && Enabled(State(FlagsOf(state), value, sender, receiver), m) {
          if Exclusive(order, Snapshot()) && (order == ClosedFirst || Close !in moves) {
            StepExclusive(order, Snapshot(), m);
          }
          OtherMove(side, m);
        }
      }
    }

    // ----- the sender

    /** The sender has finished, and `send` reports how. */
    ghost predicate SendReports(r: SendResult<T>, v: T)
      reads this
    {
      match r
      case SendOk => sender == SentOk && (value == Some(v) || receiver == Received(v))
      case SendErr(x) => sender == SentErr(x) && x == v
      case SendPanicked => sender == UnwrapPanic
    }

    /** Closing happens only where the order of the checks allows it. */
    ghost predicate Guarded(env: nat -> seq<Move<T>>) {
      order == ClosedFirst || NoCloses(env)
    }

    /** `send`: write the value, announce it, and take it back if the channel was closed. */
    method Send(v: T, env: nat -> seq<Move<T>>) returns (r: SendResult<T>)
      requires Valid() && sender.SenderIdle?
      modifies this
      ensures Valid() && old(history) < history && SendReports(r, v)
      ensures old(Exclusive(order, Snapshot())) && Guarded(env) ==> Exclusive(order, Snapshot()) && !r.SendPanicked?
    {
      hide Always, Accounted, FlagsOf, Offered, Run, ValidRun, Fresh, DoubleClaim;
      WriteValue(v, env);
      var wasClosed := Announce();
      if wasClosed {
        r := TakeBack(v, env);
      } else {
        r := SendOk;
        OneValue(Snapshot(), v);
      }
    }

    /** The write of the value, with the steps that may come in between and after it. */
    method WriteValue(v: T, env: nat -> seq<Move<T>>)
      requires Valid() && sender.SenderIdle?
      modifies this
      ensures Valid() && old(history) < history && sender == Written && Offered(history) == multiset{v}
      ensures old(Exclusive(order, Snapshot())) && Guarded(env) ==> Exclusive(order, Snapshot())
    {
      EnterWith(v);
      Interfere(SenderSide, env(0));
      LeaveWritten();
      Interfere(SenderSide, env(1));
    }

    /** `consume_value` and `unwrap` by the sender, with the steps that may come in between. */
    method TakeBack(v: T, env: nat -> seq<Move<T>>) returns (r: SendResult<T>)
      requires Valid() && sender.Refused? && Offered(history) == multiset{v}
      modifies this
      ensures Valid() && old(history) < history && SendReports(r, v)
      ensures old(Exclusive(order, Snapshot())) && Guarded(env) ==> Exclusive(order, Snapshot()) && !r.SendPanicked?
    {
      hide Always, Accounted, FlagsOf, Offered, Run, ValidRun, Fresh, DoubleClaim;
      Interfere(SenderSide, env(2));
      EnterBack();
      Interfere(SenderSide, env(3));
      var taken := LeaveBack();
      r := if taken.Some? then SendErr(taken.value) else SendPanicked;
      OneValue(Snapshot(), v);
      ExclusiveIsHarmless(order, Snapshot());
    }

    method EnterWith(v: T)
      requires Valid() && sender.SenderIdle?
      modifies this
      ensures Valid() && sender == Writing(v) && old(history) < history && Offered(history) == multiset{v}
      ensures old(Exclusive(order, Snapshot())) ==> Exclusive(order, Snapshot())
    {
      ghost var s := Snapshot();
      NothingSent(s, Offered(history));
      sender := Writing(v);
      Record(s, Move.Send(v));
      assert multiset{} + OfferedBy(Move.Send(v)) == multiset{v};
    }

    /** A step of the sender that has just been carried out on the fields. */
    ghost method RecordSender(s: State<T>)
      requires Fresh(start) && ValidRun(order, start, history) && Run(order, start, history) == s
      requires Always(s) && Accounted(s, Offered(history))
      requires Enabled(s, SenderStep) && Next(order, s, SenderStep) == Snapshot()
      modifies `history
      ensures Valid() && old(history) < history && Offered(history) == Offered(old(history))
      ensures Exclusive(order, s) ==> Exclusive(order, Snapshot())
    {
      if Exclusive(order, s) {
        StepExclusive(order, s, SenderStep);
      }
      Record(s, SenderStep);
      assert Offered(old(history)) + OfferedBy(Move<T>.SenderStep) == Offered(old(history));
    }

    method LeaveWritten()
      requires Valid() && sender.Writing?
      modifies this
      ensures Valid() && sender == Written && value == Some(old(sender).value) && old(history) < history
      ensures state == old(state) && receiver == old(receiver) && Offered(history) == Offered(old(history))
      ensures old(Exclusive(order, Snapshot())) ==> Exclusive(order, Snapshot())
    {
      ghost var s := Snapshot();
      value, sender := Some(sender.value), Written;
      RecordSender(s);
    }

    /** `complete`: set VALUE_SENT and say whether the channel was closed before. */
    method Announce() returns (wasClosed: bool)
      requires Valid() && sender.Written?
      modifies this
      ensures Valid() && sender == (if wasClosed then Refused else SentOk) && old(history) < history
      ensures wasClosed == FlagsOf(old(state)).closed && state == SetWord(old(state), SetComplete)
      ensures value == old(value) && receiver == old(receiver) && Offered(history) == Offered(old(history))
      ensures old(Exclusive(order, Snapshot())) ==> Exclusive(order, Snapshot())
    {
      ghost var s := Snapshot();
      var prev := FetchOr(SetComplete);
      wasClosed := prev.closed;
      sender := if wasClosed then Refused else SentOk;
      RecordSender(s);
    }

    method EnterBack()
      requires Valid() && sender.Refused?
      modifies this
      ensures Valid() && sender == TakingBack(old(value)) && old(history) < history
      ensures state == old(state) && value == old(value) && receiver == old(receiver)
      ensures Offered(history) == Offered(old(history))
      ensures old(Exclusive(order, Snapshot())) ==> Exclusive(order, Snapshot())
    {
      ghost var s := Snapshot();
      sender := TakingBack(value);
      RecordSender(s);
    }

    /** `consume_value` by the sender: what it read when it went in, and the cell is empty. */
    method LeaveBack() returns (taken: Option<T>)
      requires Valid() && sender.TakingBack?
      modifies this
      ensures Valid() && taken == old(sender).got && value == None && old(history) < history
      ensures sender == if taken.Some? then SentErr(taken.value) else UnwrapPanic
      ensures state == old(state) && receiver == old(receiver) && Offered(history) == Offered(old(history))
      ensures old(Exclusive(order, Snapshot())) ==> Exclusive(order, Snapshot())
    {
      ghost var s := Snapshot();
      taken, value := sender.got, None;
      sender := if taken.Some? then SentErr(taken.value) else UnwrapPanic;
      RecordSender(s);
    }

    /** Dropping a sender that never sent announces completion without a value. */
    method DropSenderUnused()
      requires Valid() && sender.SenderIdle?
      modifies this
      ensures Valid() && history == old(history) + [DropSender]
      ensures Snapshot() == old(Snapshot()).(flags := SetFlag(old(Snapshot()).flags, SetComplete),
              sender := SenderDropped)
    {
      ghost var s := Snapshot();
      var prev := FetchOr(SetComplete);
      sender := SenderDropped;
      Record(s, DropSender);
    }

    // ----- the receiver

    ghost method RecordReceiver(s: State<T>)
      requires Fresh(start) && ValidRun(order, start, history) && Run(order, start, history) == s
      requires Always(s) && Accounted(s, Offered(history))
      requires Enabled(s, ReceiverStep) && Next(order, s, ReceiverStep) == Snapshot()
      modifies `history
      ensures Valid() && old(history) < history
      ensures Exclusive(order, s) ==> Exclusive(order, Snapshot())
    {
      if Exclusive(order, s) {
        StepExclusive(order, s, ReceiverStep);
      }
      Record(s, ReceiverStep);
    }

    /** Where the receiver is after a load of the flags f: let in, sent away because the channel is closed,
        or told to try again. */
    ghost predicate Loaded(r: Receiver<T>, f: Flags) {
      && (r.Granted? || r.SawClosed? || r.NotReady?)
      && (r.NotReady? <==> !f.sent && !f.closed)
      && (r.SawClosed? <==> f.closed && (order == ClosedFirst || !f.sent))
    }

    /** What the first `try_recv` answers if it loads the flags f. */
    ghost predicate Answers(r: RecvResult<T>, f: Flags) {
      && !r.NotReferencable?
      && (r.NotCompleteNotClosed? <==> !f.sent && !f.closed)
      && (r.ChannelClosed? <==> f.closed && (order == ClosedFirst || !f.sent))
      && (r.Got? || r.ConsumeValueFailed? <==> f.sent && (order == CompleteFirst || !f.closed))
    }

    /** The load of the state and the two checks, one after the other. */
    method LoadState()
      requires Valid() && receiver.ReceiverIdle?
      modifies this
      ensures Valid() && old(history) < history && Loaded(receiver, FlagsOf(state))
      ensures state == old(state) && value == old(value) && sender == old(sender)
      ensures old(Exclusive(order, Snapshot())) ==> Exclusive(order, Snapshot())
    {
      ghost var s := Snapshot();
      if order == CompleteFirst {
        receiver := if IsComplete(state) then Granted else if IsClosed(state) then SawClosed else NotReady;
      } else {
        receiver := if IsClosed(state) then SawClosed else if IsComplete(state) then Granted else NotReady;
      }
      RecordReceiver(s);
    }

    method EnterTake()
      requires Valid() && receiver.Granted?
      modifies this
      ensures Valid() && old(history) < history && receiver == Taking(old(value))
      ensures state == old(state) && value == old(value) && sender == old(sender)
      ensures old(Exclusive(order, Snapshot())) ==> Exclusive(order, Snapshot())
    {
      ghost var s := Snapshot();
      receiver := Taking(value);
      RecordReceiver(s);
    }

    /** `consume_value` by the receiver, likewise. */
    method LeaveTake() returns (taken: Option<T>)
      requires Valid() && receiver.Taking?
      modifies this
      ensures Valid() && old(history) < history && taken == old(receiver).got && value == None
      ensures receiver == if taken.Some? then Received(taken.value) else ConsumeFailed
      ensures state == old(state) && sender == old(sender)
      ensures old(Exclusive(order, Snapshot())) ==> Exclusive(order, Snapshot())
    {
      ghost var s := Snapshot();
      taken, value := receiver.got, None;
      receiver := if taken.Some? then Received(taken.value) else ConsumeFailed;
      RecordReceiver(s);
    }

    /** The receiver has finished, and the first `try_recv` reports how. */
    ghost predicate RecvReports(r: RecvResult<T>)
      reads this
    {
      match r
      case Got(x) => receiver == Received(x)
      case ConsumeValueFailed => receiver == ConsumeFailed
      case ChannelClosed => receiver == SawClosed
      case NotCompleteNotClosed => receiver == NotReady
      case NotReferencable => false
    }

    /** `try_recv`.  It drops its reference to the shared part whatever the outcome, so only the first
        call can return anything but NotReferencable.  That one loads the flags as they are after the
        moves `at`. */
    method TryRecv(env: nat -> seq<Move<T>>) returns (r: RecvResult<T>, ghost at: seq<Move<T>>)
      requires Valid() && (receiver.Finished() || receiver.ReceiverIdle?)
      modifies this
      ensures Valid() && old(history) <= history && receiver.Finished()
      ensures r.NotReferencable? <==> old(receiver).Finished()
      ensures old(receiver).Finished() ==> Snapshot() == old(Snapshot()) && history == old(history)
      ensures old(receiver).ReceiverIdle? ==> RecvReports(r)
      ensures old(receiver).ReceiverIdle? ==>
                old(history) <= at <= history && ValidRun(order, start, at) && Answers(r, Run(order, start, at).flags)
      ensures FlagsOf(old(state)).closed || FlagsOf(old(state)).sent ==> !r.NotCompleteNotClosed?
      ensures old(receiver).ReceiverIdle? && r.Got? ==> r.value in Offered(history)
      ensures old(Exclusive(order, Snapshot())) && Guarded(env) ==>
                Exclusive(order, Snapshot()) && (r.ConsumeValueFailed? ==> sender.SenderDropped?)
    {
      if receiver.Finished() {
        return NotReferencable, [];
      }
      r, at := FirstTry(env);
    }

    /** The load of the state, the checks, and the take if they allow it. */
    method FirstTry(env: nat -> seq<Move<T>>) returns (r: RecvResult<T>, ghost at: seq<Move<T>>)
      requires Valid() && receiver.ReceiverIdle?
      modifies this
      ensures Valid() && old(history) <= at <= history && RecvReports(r)
      ensures ValidRun(order, start, at) && Answers(r, Run(order, start, at).flags)
      ensures FlagsOf(old(state)).closed || FlagsOf(old(state)).sent ==> !r.NotCompleteNotClosed?
      ensures r.Got? ==> r.value in Offered(history)
      ensures old(Exclusive(order, Snapshot())) && Guarded(env) ==>
                Exclusive(order, Snapshot()) && (r.ConsumeValueFailed? ==> sender.SenderDropped?)
    {
      hide Always, Accounted, FlagsOf, Offered, Run, ValidRun, Fresh, DoubleClaim;
      Interfere(ReceiverSide, env(0));
      at := history;
      LoadState();
      match receiver {
        case Granted =>
          var taken := Take(env);
          r := if taken.Some? then Got(taken.value) else ConsumeValueFailed;
          ExclusiveIsHarmless(order, Snapshot());
        case SawClosed => r := ChannelClosed;
        case _ => r := NotCompleteNotClosed;
      }
    }

    /** `consume_value` by the receiver, with the steps that may come in between. */
    method Take(env: nat -> seq<Move<T>>) returns (taken: Option<T>)
      requires Valid() && receiver.Granted?
      modifies this
      ensures Valid() && old(history) <= history
      ensures receiver == if taken.Some? then Received(taken.value) else ConsumeFailed
      ensures taken.Some? ==> taken.value in Offered(history)
      ensures old(Exclusive(order, Snapshot())) && Guarded(env) ==> Exclusive(order, Snapshot())
    {
      Interfere(ReceiverSide, env(1));
      EnterTake();
      Interfere(ReceiverSide, env(2));
      taken := LeaveTake();
      assert OnlyFrom(Snapshot(), Offered(history));
    }

    /** The loop in `main`: call try_recv until it returns a value or the reference is gone. */
    method ReceiveLoop(env: nat -> seq<Move<T>>) returns (results: seq<RecvResult<T>>, ghost at: seq<Move<T>>)
      requires Valid() && receiver.ReceiverIdle?
      modifies this
      ensures Valid() && 1 <= |results| <= 2
      ensures |results| == 1 <==> results[0].Got?
      ensures |results| == 2 ==> results[1].NotReferencable? && !results[0].NotReferencable?
      ensures old(history) <= at && ValidRun(order, start, at) && Answers(results[0], Run(order, start, at).flags)
    {
      hide Always, Accounted, FlagsOf, Offered, Run, ValidRun, Fresh, Exclusive, RecvReports, Answers;
      results, at := [], history;
      var done := false;
      while !done
        invariant Valid() && |results| <= 2
        invariant results == [] ==> !done && receiver.ReceiverIdle? && history == old(history)
        invariant results == [] || (old(history) <= at && ValidRun(order, start, at)
                                    && Answers(results[0], Run(order, start, at).flags))
        invariant |results| >= 1 ==> receiver.Finished() && !results[0].NotReferencable?
        invariant |results| == 1 ==> (done <==> results[0].Got?)
        invariant |results| == 2 ==> done && !results[0].Got? && results[1].NotReferencable?
        decreases 2 - |results|, !done
      {
        var r, load := TryRecv(env);
        if results == [] {
          at := load;
        }
        results := results + [r];
        done := r.Got? || r.NotReferencable?;
      }
    }

    /** Dropping a receiver that never tried to receive closes the channel. */
    method DropReceiverUnused()
      requires Valid() && receiver.ReceiverIdle?
      modifies this
      ensures Valid() && history == old(history) + [DropReceiver]
      ensures Snapshot() == old(Snapshot()).(flags := SetFlag(old(Snapshot()).flags, SetClosed),
              receiver := ReceiverDropped)
    {
      ghost var s := Snapshot();
      var prev := FetchOr(SetClosed);
      receiver := ReceiverDropped;
      Record(s, DropReceiver);
    }

    /** close(), by anyone. */
    method CloseCall()
      requires Valid()
      modifies this
      ensures Valid() && Snapshot() == old(Snapshot()).(flags := SetFlag(old(Snapshot()).flags, SetClosed))
      ensures history == old(history) + [Close]
    {
      ghost var s := Snapshot();
      var prev := FetchOr(SetClosed);
      Record(s, Close);
    }
  }

  /** A step raises at most one flag. */
  lemma NextFlags<T>(order: Order, s: State<T>, m: Move<T>)
    requires Enabled(s, m)
    ensures var f := Next(order, s, m).flags;
            f == s.flags || f == SetFlag(s.flags, SetComplete) || f == SetFlag(s.flags, SetClosed)
  {
  }

  lemma OthersLeave<T>(order: Order, s: State<T>, side: Side, m: Move<T>)
    requires Enabled(s, m) && ByOthers(side, m)
    ensures side == SenderSide ==> Next(order, s, m).sender == s.sender && OfferedBy(m) == multiset{}
    ensures side == ReceiverSide ==> Next(order, s, m).receiver == s.receiver
  {
  }

  /** Every value anywhere was sent, and unless both sides have claimed it, each sent value is in exactly
      one place. */
  ghost predicate Accounted<T>(s: State<T>, offered: multiset<T>) {
    OnlyFrom(s, offered) && (!DoubleClaim(s) ==> Holdings(s) == offered)
  }

  lemma StepAccounted<T>(order: Order, s: State<T>, m: Move<T>, offered: multiset<T>)
    requires Always(s) && Enabled(s, m) && Accounted(s, offered)
    ensures Accounted(Next(order, s, m), offered + OfferedBy(m))
  {
    hide Always, Next, Enabled, Holdings, DoubleClaim, OnlyFrom;
    StepOnlyFrom(order, s, m, offered);
    if !DoubleClaim(Next(order, s, m)) {
      StepHoldings(order, s, m);
    }
  }

  lemma NothingSent<T>(s: State<T>, offered: multiset<T>)
    requires Always(s) && Accounted(s, offered) && s.sender.SenderIdle?
    ensures offered == multiset{}
  {
    assert Holdings(s) == multiset{};
  }

  lemma ExclusiveIsHarmless<T>(order: Order, s: State<T>)
    ensures Exclusive(order, s) ==> !s.sender.UnwrapPanic? && (s.receiver.ConsumeFailed? ==> s.sender.SenderDropped?)
  {
    if Exclusive(order, s) {
      DoubleClaimIsTheHarm(s);
    }
  }

  /** If only v was sent, whoever has a value has v. */
  lemma OneValue<T>(s: State<T>, v: T)
    requires Always(s) && Accounted(s, multiset{v})
    ensures s.sender.SentErr? ==> s.sender.value == v
    ensures s.sender.SentOk? ==> s.cell == Some(v) || s.receiver == Received(v)
  {
  }

  lemma {:induction false} OfferedAppend<T>(moves: seq<Move<T>>, m: Move<T>)
    ensures Offered(moves + [m]) == Offered(moves) + OfferedBy(m)
  {
    if moves == [] {
      assert moves + [m] == [m] && Offered([m][1..]) == multiset{};
    } else {
      assert (moves + [m])[1..] == moves[1..] + [m];
      OfferedAppend(moves[1..], m);
    }
  }
}
