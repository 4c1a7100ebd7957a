/** Who may touch the value cell, for both orders of the two checks, and what becomes of the value. */
module ChannelSafety {
  import opened Common
  import opened ChannelWord
  import opened ChannelMachine

  // ----- what holds in every run, of either order and with closes at any time

  /** Both sides have claimed the value. */
  predicate DoubleClaim<T>(s: State<T>) {
    s.sender.Claims() && s.receiver.Claims()
  }

  /** The side has found the cell empty. */
  predicate SenderEmpty<T>(sender: Sender<T>) { sender.UnwrapPanic? || (sender.TakingBack? && sender.got.None?) }

  predicate ReceiverEmpty<T>(receiver: Receiver<T>) { receiver.ConsumeFailed?
      || (receiver.Taking? && receiver.got.None?) }

  ghost predicate Always<T>(s: State<T>) {
    && (s.flags.sent <==> s.sender.Completed())
    && (s.sender.Claims() ==> s.flags.closed)
    && (s.receiver.Claims() ==> s.flags.sent)
    && (s.receiver.ReceiverDropped? || s.receiver.SawClosed? ==> s.flags.closed)
    && CellOk(s)
    && (DoubleClaim(s) ==> DoubleOk(s))
  }

  /** The cell holds the value until the one side that has claimed it comes out. */
  ghost predicate CellOk<T>(s: State<T>) {
    && (s.sender.SenderIdle? || s.sender.Writing? || s.sender.SenderDropped? ==>
          s.cell.None? && !s.receiver.Received? && (s.receiver.Taking? ==> s.receiver.got.None?))
    && (s.sender.Written? ==> s.cell.Some?)
    && (s.sender.SentOk? ==>
          (s.cell.None? <==> s.receiver.Received?) && !s.receiver.ConsumeFailed?
          && (s.receiver.Taking? ==> s.receiver.got == s.cell))
    && (s.sender.Claims() && !s.receiver.Claims() ==>
          (s.cell.None? <==> s.sender.SentErr?) && !s.sender.UnwrapPanic?
          && (s.sender.TakingBack? ==> s.sender.got == s.cell))
  }

  /** After a double claim somebody has had the value before anybody finds the cell empty. */
  ghost predicate DoubleOk<T>(s: State<T>) {
    && (s.cell.None? ==> s.receiver.Received? || s.sender.SentErr?)
    && (SenderEmpty(s.sender) ==> s.receiver.Received?)
    && (ReceiverEmpty(s.receiver) ==> s.sender.SentErr?)
  }

  lemma StepAlways<T>(order: Order, s: State<T>, m: Move<T>)
    requires Always(s) && Enabled(s, m)
    ensures Always(Next(order, s, m))
  {
    match m {
      case SenderStep => SenderAlways(order, s);
      case ReceiverStep => ReceiverAlways(order, s);
      case _ =>
    }
  }

  lemma SenderAlways<T>(order: Order, s: State<T>)
    requires Always(s) && Enabled(s, SenderStep)
    ensures Always(Next(order, s, SenderStep))
  {
  }

  lemma ReceiverAlways<T>(order: Order, s: State<T>)
    requires Always(s) && Enabled(s, ReceiverStep)
    ensures Always(Next(order, s, ReceiverStep))
  {
    assert Decide<T>(order, s.flags).Claims() ==> s.flags.sent;
  }

  lemma FreshAlways<T>(s: State<T>)
    requires Fresh(s)
    ensures Always(s) && Holdings(s) == multiset{} && OnlyFrom(s, multiset{})
  {
  }

  /** The values passed to `send` in a run. */
  ghost function Offered<T>(moves: seq<Move<T>>): multiset<T> {
    if moves == [] then multiset{} else OfferedBy(moves[0]) + Offered(moves[1..])
  }

  ghost function OfferedBy<T>(m: Move<T>): multiset<T> {
    if m.Send? then multiset{m.value} else multiset{}
  }

  /** Every value that is anywhere is one of `bag`. */
  ghost predicate OnlyFrom<T>(s: State<T>, bag: multiset<T>) {
    && (s.sender.Writing? || s.sender.SentErr? ==> s.sender.value in bag)
    && (s.sender.TakingBack? && s.sender.got.Some? ==> s.sender.got.value in bag)
    && (s.cell.Some? ==> s.cell.value in bag)
    && (s.receiver.Taking? && s.receiver.got.Some? ==> s.receiver.got.value in bag)
    && (s.receiver.Received? ==> s.receiver.value in bag)
  }

  lemma StepOnlyFrom<T>(order: Order, s: State<T>, m: Move<T>, bag: multiset<T>)
    requires OnlyFrom(s, bag) && Enabled(s, m)
    ensures OnlyFrom(Next(order, s, m), bag + OfferedBy(m))
  {
  }

  /** Nobody ever gets a value that was not sent: in every run, of either order, with closes at any
      time, and even when both sides are in the cell together. */
  lemma {:induction false} OnlySentValues<T>(order: Order, s: State<T>, moves: seq<Move<T>>, bag: multiset<T>)
    requires OnlyFrom(s, bag) && ValidRun(order, s, moves)
    ensures OnlyFrom(Run(order, s, moves), bag + Offered(moves))
    decreases |moves|
  {
    hide OnlyFrom, Next, Enabled;
    if moves == [] {
      assert bag + multiset{} == bag;
    } else {
      StepOnlyFrom(order, s, moves[0], bag);
      OnlySentValues(order, Next(order, s, moves[0]), moves[1..], bag + OfferedBy(moves[0]));
      assert bag + OfferedBy(moves[0]) + Offered(moves[1..]) == bag + Offered(moves);
    }
  }

  // ----- conservation, as long as only one side has claimed the value

  /** The values in play: with the sender, in the cell, received, or handed back.  A value that a side
      has read and not yet removed counts as being in the cell. */
  ghost function Holdings<T>(s: State<T>): multiset<T> {
    WithSender(s.sender) + InCell(s.cell) + WithReceiver(s.receiver)
  }

  ghost function WithSender<T>(sender: Sender<T>): multiset<T> {
    if sender.Writing? || sender.SentErr? then multiset{sender.value} else multiset{}
  }

  ghost function InCell<T>(cell: Option<T>): multiset<T> {
    if cell.Some? then multiset{cell.value} else multiset{}
  }

  ghost function WithReceiver<T>(receiver: Receiver<T>): multiset<T> {
    if receiver.Received? then multiset{receiver.value} else multiset{}
  }

  /** Without a double claim every access moves the value from one place to another, or does not touch
      it. */
  lemma StepHoldings<T>(order: Order, s: State<T>, m: Move<T>)
    requires Always(s) && Enabled(s, m) && !DoubleClaim(Next(order, s, m))
    ensures !DoubleClaim(s)
    ensures Holdings(Next(order, s, m)) == Holdings(s) + OfferedBy(m)
  {
    ClaimsStay(order, s, m);
    match m {
      case SenderStep => SenderHoldings(order, s);
      case ReceiverStep => ReceiverHoldings(order, s);
      case _ =>
    }
  }

  /** A claim is never given up. */
  lemma ClaimsStay<T>(order: Order, s: State<T>, m: Move<T>)
    requires Enabled(s, m)
    ensures s.sender.Claims() ==> Next(order, s, m).sender.Claims()
    ensures s.receiver.Claims() ==> Next(order, s, m).receiver.Claims()
  {
  }

  lemma SenderHoldings<T>(order: Order, s: State<T>)
    requires Always(s) && Enabled(s, SenderStep) && !DoubleClaim(s)
    ensures Holdings(Next(order, s, SenderStep)) == Holdings(s)
  {
    SenderMoves(order, s);
    var t := Next(order, s, SenderStep);
    hide Always, Next, Enabled, DoubleClaim, WithReceiver;
    assert WithSender(t.sender) + InCell(t.cell) == WithSender(s.sender) + InCell(s.cell);
  }

  /** The sender puts the value into the cell, takes it back, or leaves it where it is. */
  lemma SenderMoves<T>(order: Order, s: State<T>)
    requires Always(s) && Enabled(s, SenderStep) && !DoubleClaim(s)
    ensures var t := Next(order, s, SenderStep);
            && t.receiver == s.receiver
            && if s.sender.Writing? then s.cell.None? && t.cell == Some(s.sender.value) && t.sender.Written?
               else if t.cell == s.cell then !t.sender.SentErr? && !t.sender.Writing? && !s.sender.SentErr?
               else s.cell.Some? && t.cell.None? && t.sender == SentErr(s.cell.value) && !s.sender.SentErr?
  {
  }

  lemma ReceiverHoldings<T>(order: Order, s: State<T>)
    requires Always(s) && Enabled(s, ReceiverStep) && !DoubleClaim(s)
    ensures Holdings(Next(order, s, ReceiverStep)) == Holdings(s)
  {
    ReceiverMoves(order, s);
    var t := Next(order, s, ReceiverStep);
    hide Enabled, Always, Next, DoubleClaim;
    assert InCell(t.cell) + WithReceiver(t.receiver) == InCell(s.cell) + WithReceiver(s.receiver);
    hide InCell, WithReceiver, WithSender;
    Assoc(WithSender(s.sender), InCell(t.cell), WithReceiver(t.receiver), InCell(s.cell), WithReceiver(s.receiver));
  }

  /** The receiver takes the value out of the cell, or leaves it where it is. */
  lemma ReceiverMoves<T>(order: Order, s: State<T>)
    requires Always(s) && Enabled(s, ReceiverStep) && !DoubleClaim(s)
    ensures var t := Next(order, s, ReceiverStep);
            && t.sender == s.sender && !s.receiver.Received?
            && if t.cell == s.cell then !t.receiver.Received?
               else s.cell.Some? && t.cell.None? && t.receiver == Received(s.cell.value)
  {
  }

  lemma Assoc<T>(a: multiset<T>, b: multiset<T>, c: multiset<T>, b': multiset<T>, c': multiset<T>)
    requires b + c == b' + c'
    ensures a + b + c == a + b' + c'
  {
    assert a + b + c == a + (b + c);
  }

  /** Conservation: in every run of either order, with closes at any time, that does not lead to a
      double claim, what was passed to `send` is in exactly one of the four places. */
  lemma {:induction false} ValueConserved<T>(order: Order, s: State<T>, moves: seq<Move<T>>)
    requires Always(s) && ValidRun(order, s, moves)
    ensures Always(Run(order, s, moves))
    ensures !DoubleClaim(Run(order, s, moves)) ==>
              !DoubleClaim(s) && Holdings(Run(order, s, moves)) == Holdings(s) + Offered(moves)
    decreases |moves|
  {
    hide Always, Next, Enabled, Holdings, DoubleClaim;
    if moves != [] {
      var t := Next(order, s, moves[0]);
      StepAlways(order, s, moves[0]);
      ValueConserved(order, t, moves[1..]);
      if !DoubleClaim(Run(order, s, moves)) {
        StepHoldings(order, s, moves[0]);
      }
    }
  }

  // ----- what a double claim does

  /** What makes the channel correct: nobody meets the other in the cell, `unwrap` never meets None,
      a failed consume means a dropped sender, the value is not both handed back and received, and Ok
      from `send` means that the value is in the cell or with the receiver. */
  ghost predicate Correct<T>(s: State<T>) {
    && !Clash(s)
    && !s.sender.UnwrapPanic?
    && (s.receiver.ConsumeFailed? ==> s.sender.SenderDropped?)
    && !(s.sender.SentErr? && s.receiver.Received?)
    && (s.sender.SentOk? ==> s.cell.Some? || s.receiver.Received?)
  }

  /** A double claim is the harm, and the only one.  Without one the channel is correct.  With one, when
      both sides are through, it is not: either both have the value, or exactly one of them found the
      cell empty. */
  lemma DoubleClaimIsTheHarm<T>(s: State<T>)
    requires Always(s)
    ensures !DoubleClaim(s) ==> Correct(s)
    ensures DoubleClaim(s) && s.sender.Finished() && s.receiver.Finished() ==>
              && !Correct(s)
              && ((s.sender.SentErr? && s.receiver.Received?)
                  || (s.sender.UnwrapPanic? && s.receiver.Received?)
                  || (s.sender.SentErr? && s.receiver.ConsumeFailed?))
  {
  }

  // ----- when no double claim can happen

  /** For the commented order nothing more is needed; for the shipped order only a receiver that was
      dropped unused may have closed the channel. */
  ghost predicate Exclusive<T>(order: Order, s: State<T>) {
    && Always(s)
    && !DoubleClaim(s)
    && (order == CompleteFirst && s.flags.closed ==> s.receiver.ReceiverDropped?)
  }

  lemma StepExclusive<T>(order: Order, s: State<T>, m: Move<T>)
    requires Exclusive(order, s) && Enabled(s, m)
    requires order == CompleteFirst ==> !m.Close?
    ensures Exclusive(order, Next(order, s, m))
  {
    StepAlways(order, s, m);
    hide CellOk, DoubleOk;
  }

  lemma {:induction false} RunExclusive<T>(order: Order, s: State<T>, moves: seq<Move<T>>)
    requires Exclusive(order, s) && ValidRun(order, s, moves)
    requires order == CompleteFirst ==> Close !in moves
    ensures Exclusive(order, Run(order, s, moves))
    decreases |moves|
  {
    hide Exclusive, Next, Enabled;
    if moves != [] {
      StepExclusive(order, s, moves[0]);
      RunExclusive(order, Next(order, s, moves[0]), moves[1..]);
    }
  }

  /** Correct, and the value is in exactly one place. */
  ghost predicate Faithful<T>(s: State<T>, moves: seq<Move<T>>) {
    Correct(s) && Holdings(s) == Offered(moves)
  }

  lemma ExclusiveFaithful<T>(order: Order, s: State<T>, moves: seq<Move<T>>)
    requires Fresh(s) && Exclusive(order, s) && ValidRun(order, s, moves)
    requires order == CompleteFirst ==> Close !in moves
    ensures Faithful(Run(order, s, moves), moves)
  {
    FreshAlways(s);
    RunExclusive(order, s, moves);
    ValueConserved(order, s, moves);
    DoubleClaimIsTheHarm(Run(order, s, moves));
    assert multiset{} + Offered(moves) == Offered(moves);
  }

  /** The commented order is correct, and conserves the value, from every fresh state, closed or not,
      with closes at any time by any number of callers. */
  lemma ClosedFirstCorrect<T>(s: State<T>, moves: seq<Move<T>>)
    requires Fresh(s) && ValidRun(ClosedFirst, s, moves)
    ensures Faithful(Run(ClosedFirst, s, moves), moves)
  {
    FreshAlways(s);
    ExclusiveFaithful(ClosedFirst, s, moves);
  }

  /** The shipped order is correct, and conserves the value, in every run from `channel()`: there only a
      receiver dropped without try_recv closes, and such a receiver never consumes. */
  lemma CompleteFirstCorrect<T>(moves: seq<Move<T>>)
    requires ValidRun(CompleteFirst, Channel<T>(), moves) && Close !in moves
    ensures Faithful(Run(CompleteFirst, Channel<T>(), moves), moves)
  {
    FreshAlways(Channel<T>());
    ExclusiveFaithful(CompleteFirst, Channel<T>(), moves);
  }

  // ----- what the shipped order does from a closed start

  /** Both sides have read the value and are still in the cell. */
  function BothInside<T>(v: T): State<T> {
    State(Flags(true, true), Some(v), TakingBack(Some(v)), Taking(Some(v)))
  }

  /** Both sides have claimed the value, and it is still in the cell. */
  function BothClaim<T>(v: T): State<T> {
    State(Flags(true, true), Some(v), Refused, Granted)
  }

  /** From a closed start the shipped order lets both sides claim the value. */
  lemma ClosedStartClaims<T>(s: State<T>, v: T, rest: seq<Move<T>>) returns (moves: seq<Move<T>>)
    requires Fresh(s) && s.flags.closed && Close !in rest
    requires ValidRun(CompleteFirst, BothClaim(v), rest)
    ensures ValidRun(CompleteFirst, s, moves) && Close !in moves
    ensures Run(CompleteFirst, s, moves) == Run(CompleteFirst, BothClaim(v), rest)
    ensures moves == [Send(v), SenderStep, SenderStep, ReceiverStep] + rest
  {
    var s1 := Next(CompleteFirst, s, Send(v));
    var s2 := Next(CompleteFirst, s1, SenderStep);
    var s3 := Next(CompleteFirst, s2, SenderStep);
    assert Next(CompleteFirst, s3, ReceiverStep) == BothClaim(v);
    RunCons(CompleteFirst, s3, ReceiverStep, rest);
    RunCons(CompleteFirst, s2, SenderStep, [ReceiverStep] + rest);
    RunCons(CompleteFirst, s1, SenderStep, [SenderStep] + ([ReceiverStep] + rest));
    RunCons(CompleteFirst, s, Send(v), [SenderStep] + ([SenderStep] + ([ReceiverStep] + rest)));
    moves := [Send(v)] + ([SenderStep] + ([SenderStep] + ([ReceiverStep] + rest)));
    assert moves == [Send(v), SenderStep, SenderStep, ReceiverStep] + rest;
  }

  /** Two more steps, and both are in the cell. */
  lemma BothEnter<T>(v: T, rest: seq<Move<T>>) returns (moves: seq<Move<T>>)
    requires ValidRun(CompleteFirst, BothInside(v), rest) && Close !in rest
    ensures ValidRun(CompleteFirst, BothClaim(v), moves) && Close !in moves
    ensures Run(CompleteFirst, BothClaim(v), moves) == Run(CompleteFirst, BothInside(v), rest)
    ensures moves == [SenderStep, ReceiverStep] + rest
  {
    var s1 := Next(CompleteFirst, BothClaim(v), SenderStep);
    assert Next(CompleteFirst, s1, ReceiverStep) == BothInside(v);
    RunCons(CompleteFirst, s1, ReceiverStep, rest);
    RunCons(CompleteFirst, BothClaim(v), SenderStep, [ReceiverStep] + rest);
    moves := [SenderStep] + ([ReceiverStep] + rest);
    assert moves == [SenderStep, ReceiverStep] + rest;
  }

  /** From a closed start the shipped order lets both sides into the cell. */
  lemma ClosedStartClashes<T>(s: State<T>, v: T) returns (moves: seq<Move<T>>)
    requires Fresh(s) && s.flags.closed
    ensures ValidRun(CompleteFirst, s, moves) && Close !in moves
    ensures Clash(Run(CompleteFirst, s, moves))
  {
    var entering := BothEnter(v, []);
    moves := ClosedStartClaims(s, v, entering);
  }

  /** And both get the value: `send` hands it back and `try_recv` returns it, although it was sent
      once. */
  lemma ClosedStartDuplicates<T>(s: State<T>, v: T) returns (moves: seq<Move<T>>)
    requires Fresh(s) && s.flags.closed
    ensures ValidRun(CompleteFirst, s, moves) && Close !in moves
    ensures Offered(moves) == multiset{v}
    ensures var t := Run(CompleteFirst, s, moves);
            t.sender == SentErr(v) && t.receiver == Received(v) && Holdings(t) == multiset{v, v}
  {
    var s1 := Next(CompleteFirst, BothInside(v), SenderStep);
    RunCons(CompleteFirst, s1, ReceiverStep, []);
    RunCons(CompleteFirst, BothInside(v), SenderStep, [ReceiverStep] + []);
    var leaving := [SenderStep] + ([ReceiverStep] + []);
    var entering := BothEnter(v, leaving);
    moves := ClosedStartClaims(s, v, entering);
    assert moves == [Send(v)] + [SenderStep, SenderStep, ReceiverStep, SenderStep, ReceiverStep, SenderStep,
        ReceiverStep];
    OfferedOnce(v, moves);
  }

  /** Or the receiver is through before the sender goes in, and the sender's `unwrap` panics. */
  lemma ClosedStartPanics<T>(s: State<T>, v: T) returns (moves: seq<Move<T>>)
    requires Fresh(s) && s.flags.closed
    ensures ValidRun(CompleteFirst, s, moves) && Close !in moves
    ensures var t := Run(CompleteFirst, s, moves); t.sender.UnwrapPanic? && t.receiver == Received(v)
  {
    var s0 := BothClaim(v);
    var s1 := Next(CompleteFirst, s0, ReceiverStep);
    var s2 := Next(CompleteFirst, s1, ReceiverStep);
    var s3 := Next(CompleteFirst, s2, SenderStep);
    RunCons(CompleteFirst, s3, SenderStep, []);
    RunCons(CompleteFirst, s2, SenderStep, [SenderStep] + []);
    RunCons(CompleteFirst, s1, ReceiverStep, [SenderStep] + ([SenderStep] + []));
    RunCons(CompleteFirst, s0, ReceiverStep, [ReceiverStep] + ([SenderStep] + ([SenderStep] + [])));
    moves := ClosedStartClaims(s, v, [ReceiverStep] + ([ReceiverStep] + ([SenderStep] + ([SenderStep] + []))));
  }

  lemma OfferedOnce<T>(v: T, moves: seq<Move<T>>)
    requires moves != [] && moves[0] == Move.Send(v) && forall i :: 1 <= i < |moves| ==> !moves[i].Send?
    ensures Offered(moves) == multiset{v}
  {
    NothingOffered(moves[1..]);
  }

  lemma {:induction false} NothingOffered<T>(moves: seq<Move<T>>)
    requires forall i :: 0 <= i < |moves| ==> !moves[i].Send?
    ensures Offered(moves) == multiset{}
  {
    if moves != [] {
      NothingOffered(moves[1..]);
    }
  }

  /** Exactly when the shipped order keeps its promises: from a fresh state, no run without further
      closes lets the two sides meet in the cell if and only if the channel is not closed at the start.
      `main` closes it first. */
  lemma CompleteFirstExact<T(!new)>(s: State<T>, v: T)
    requires Fresh(s)
    ensures !s.flags.closed <==>
            forall moves :: ValidRun(CompleteFirst, s, moves) && Close !in moves
                            ==> !Clash(Run(CompleteFirst, s, moves))
  {
    if s.flags.closed {
      var moves := ClosedStartClashes(s, v);
    } else {
      FreshAlways(s);
      forall moves | ValidRun(CompleteFirst, s, moves) && Close !in moves
        ensures !Clash(Run(CompleteFirst, s, moves))
      {
        ExclusiveFaithful(CompleteFirst, s, moves);
      }
    }
  }

  /** The same condition decides whether the value is always taken at most once. */
  lemma SingleTakeExact<T(!new)>(s: State<T>, v: T)
    requires Fresh(s)
    ensures !s.flags.closed <==>
            forall moves :: ValidRun(CompleteFirst, s, moves) && Close !in moves ==>
              var t := Run(CompleteFirst, s, moves); !(t.sender.SentErr? && t.receiver.Received?)
  {
    if s.flags.closed {
      var moves := ClosedStartDuplicates(s, v);
    } else {
      FreshAlways(s);
      forall moves | ValidRun(CompleteFirst, s, moves) && Close !in moves
        ensures var t := Run(CompleteFirst, s, moves); !(t.sender.SentErr? && t.receiver.Received?)
      {
        ExclusiveFaithful(CompleteFirst, s, moves);
      }
    }
  }

  /** And whether the value is always in exactly one place. */
  lemma ConservationExact<T(!new)>(s: State<T>, v: T)
    requires Fresh(s)
    ensures !s.flags.closed <==>
            forall moves :: ValidRun(CompleteFirst, s, moves) && Close !in moves
                            ==> Holdings(Run(CompleteFirst, s, moves)) == Offered(moves)
  {
    if s.flags.closed {
      var moves := ClosedStartDuplicates(s, v);
      assert multiset{v, v}[v] == 2 && multiset{v}[v] == 1;
    } else {
      FreshAlways(s);
      forall moves | ValidRun(CompleteFirst, s, moves) && Close !in moves
        ensures Holdings(Run(CompleteFirst, s, moves)) == Offered(moves)
      {
        ExclusiveFaithful(CompleteFirst, s, moves);
      }
    }
  }

  // ----- delivery

  /** The send has returned Ok and the receiver has been let in for v, or has it. */
  ghost predicate Delivering<T>(s: State<T>, v: T) {
    && s.sender.SentOk?
    && (s.receiver == Received(v)
        || (s.receiver.Granted? && s.cell == Some(v))
        || (s.receiver.Taking? && s.receiver.got == Some(v)))
  }

  lemma {:induction false} RunDelivers<T>(order: Order, s: State<T>, v: T, moves: seq<Move<T>>)
    requires Delivering(s, v) && ValidRun(order, s, moves)
    ensures Delivering(Run(order, s, moves), v)
    decreases |moves|
  {
    if moves != [] {
      RunDelivers(order, Next(order, s, moves[0]), v, moves[1..]);
    }
  }

  /** A receiver whose load of the state follows a send of v that returned Ok is let in by the
      shipped order always and by the commented order exactly when nobody has closed; and once let
      in it returns v, whatever happens in between. */
  lemma OkIsDelivered<T>(order: Order, s: State<T>, v: T, moves: seq<Move<T>>)
    requires Always(s) && OnlyFrom(s, multiset{v}) && s.sender.SentOk? && s.receiver.ReceiverIdle?
    requires ValidRun(order, Next(order, s, ReceiverStep), moves)
    ensures Next(order, s, ReceiverStep).receiver.Granted? <==> order == CompleteFirst || !s.flags.closed
    ensures Next(order, s, ReceiverStep).receiver.Granted?
            && Run(order, Next(order, s, ReceiverStep), moves).receiver.Finished()
            ==> Run(order, Next(order, s, ReceiverStep), moves).receiver == Received(v)
  {
    if Next(order, s, ReceiverStep).receiver.Granted? {
      assert s.cell == Some(v);
      RunDelivers(order, Next(order, s, ReceiverStep), v, moves);
    }
  }

  /** Once a channel is closed or complete, a receiver that has not loaded its state yet is not told that
      it is neither, in any run of either order. */
  lemma {:induction false} NeverNotReady<T>(order: Order, s: State<T>, moves: seq<Move<T>>)
    requires ValidRun(order, s, moves) && !s.receiver.NotReady? && (s.flags.closed || s.flags.sent)
    ensures !Run(order, s, moves).receiver.NotReady?
    decreases |moves|
  {
    if moves != [] {
      NeverNotReady(order, Next(order, s, moves[0]), moves[1..]);
    }
  }
}
