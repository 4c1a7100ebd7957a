/** The one-shot channel of inputs/tokio_59c0044/src/main.rs as a machine.

    The value cell is unprotected, so every access to it takes two steps, going in and coming out,
    and being inside at the same time is something the machine can do.  `take` reads the cell when it
    goes in and writes None when it comes out, so two overlapping takes can both get the value.
    `Close` moves are close() calls by anyone who holds a reference to the shared part. */
module ChannelMachine {
  import opened Common
  import opened ChannelWord

  /** Which of the two bits try_recv tests first: the shipped code the completion bit, the commented
      code the closed bit. */
  datatype Order = CompleteFirst | ClosedFirst

  datatype Sender<T> =
    | SenderIdle
    | Writing(value: T)      // inside the cell
    | Written                // about to set VALUE_SENT
    | Refused                // saw CLOSED, about to take the value back
    | TakingBack(got: Option<T>)  // inside the cell, has read it
    | SentOk
    | SentErr(value: T)
    | UnwrapPanic
    | SenderDropped
  {
    predicate Inside() { Writing? || TakingBack? }
    predicate Claims() { Refused? || TakingBack? || SentErr? || UnwrapPanic? }
    predicate Finished() { SentOk? || SentErr? || UnwrapPanic? || SenderDropped? }
    /** VALUE_SENT has been set. */
    predicate Completed() { Claims() || SentOk? || SenderDropped? }
  }

  datatype Receiver<T> =
    | ReceiverIdle
    | Granted                // saw VALUE_SENT, about to take the value
    | Taking(got: Option<T>) // inside the cell, has read it
    | Received(value: T)
    | ConsumeFailed
    | SawClosed
    | NotReady
    | ReceiverDropped
  {
    predicate Inside() { Taking? }
    predicate Claims() { Granted? || Taking? || Received? || ConsumeFailed? }
    predicate Finished() { !ReceiverIdle? && !Granted? && !Taking? }
  }

  datatype State<T> = State(flags: Flags, cell: Option<T>, sender: Sender<T>, receiver: Receiver<T>)

  datatype Move<T> = Send(value: T) | SenderStep | DropSender | ReceiverStep | DropReceiver | Close

  predicate Enabled<T>(s: State<T>, m: Move<T>) {
    match m
    case Send(_) => s.sender.SenderIdle?
    case SenderStep => !s.sender.SenderIdle? && !s.sender.Finished()
    case DropSender => s.sender.SenderIdle?
    case ReceiverStep => !s.receiver.Finished()
    case DropReceiver => s.receiver.ReceiverIdle?
    case Close => true
  }

  function Decide<T>(order: Order, f: Flags): Receiver<T> {
    if order == CompleteFirst then
      if f.sent then Granted else if f.closed then SawClosed else NotReady
    else
      if f.closed then SawClosed else if f.sent then Granted else NotReady
  }

  function Next<T>(order: Order, s: State<T>, m: Move<T>): State<T>
    requires Enabled(s, m)
  {
    match m
    case Send(v) => s.(sender := Writing(v))
    case DropSender => s.(flags := SetFlag(s.flags, SetComplete), sender := SenderDropped)
    case SenderStep =>
      (match s.sender
       case Writing(v) => s.(cell := Some(v), sender := Written)
       case Written => s.(flags := SetFlag(s.flags, SetComplete), sender := if s.flags.closed then Refused else SentOk)
       case Refused => s.(sender := TakingBack(s.cell))
       case TakingBack(got) => s.(cell := None, sender := if got.Some? then SentErr(got.value) else UnwrapPanic)
       case _ => s)
    case ReceiverStep =>
      (match s.receiver
       case ReceiverIdle => s.(receiver := Decide(order, s.flags))
       case Granted => s.(receiver := Taking(s.cell))
       case Taking(got) => s.(cell := None, receiver := if got.Some? then Received(got.value) else ConsumeFailed)
       case _ => s)
    case DropReceiver => s.(flags := SetFlag(s.flags, SetClosed), receiver := ReceiverDropped)
    case Close => s.(flags := SetFlag(s.flags, SetClosed))
  }

  ghost predicate ValidRun<T>(order: Order, s: State<T>, moves: seq<Move<T>>)
    decreases |moves|
  {
    moves == [] || (Enabled(s, moves[0]) && ValidRun(order, Next(order, s, moves[0]), moves[1..]))
  }

  ghost function Run<T>(order: Order, s: State<T>, moves: seq<Move<T>>): State<T>
    requires ValidRun(order, s, moves)
    decreases |moves|
  {
    if moves == [] then s else Run(order, Next(order, s, moves[0]), moves[1..])
  }

  lemma RunCons<T>(order: Order, s: State<T>, m: Move<T>, rest: seq<Move<T>>)
    requires Enabled(s, m) && ValidRun(order, Next(order, s, m), rest)
    ensures ValidRun(order, s, [m] + rest) && Run(order, s, [m] + rest) == Run(order, Next(order, s, m), rest)
  {
    assert ([m] + rest)[1..] == rest;
  }

  lemma {:induction false} RunAppend<T>(order: Order, s: State<T>, xs: seq<Move<T>>, ys: seq<Move<T>>)
    requires ValidRun(order, s, xs) && ValidRun(order, Run(order, s, xs), ys)
    ensures ValidRun(order, s, xs + ys)
    ensures Run(order, s, xs + ys) == Run(order, Run(order, s, xs), ys)
    decreases |xs|
  {
    if xs == [] {
      assert xs + ys == ys;
    } else {
      RunAppend(order, Next(order, s, xs[0]), xs[1..], ys);
      RunCons(order, s, xs[0], xs[1..] + ys);
      assert xs + ys == [xs[0]] + (xs[1..] + ys);
    }
  }

  /** Nobody has started and the value has not been announced; the channel may already be closed. */
  predicate Fresh<T>(s: State<T>) {
    !s.flags.sent && s.cell.None? && s.sender.SenderIdle? && s.receiver.ReceiverIdle?
  }

  /** What `channel()` returns. */
  function Channel<T>(): State<T> {
    State(Flags(false, false), None, SenderIdle, ReceiverIdle)
  }

  /** Sender and receiver are in the cell at the same time. */
  predicate Clash<T>(s: State<T>) {
    s.sender.Inside() && s.receiver.Inside()
  }
}
