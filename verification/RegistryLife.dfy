/** The life of a peer over whole runs, and what a finished broadcast or close has done. */
module RegistryLife {
  import opened Common
  import opened RegistryMachine
  import opened RegistrySafety
  import RegistryProgress

  /** In every run from an empty registry, for every peer: the values received so far are, in order,
      the first of the values accepted, and at most ten wait; it is told to close at most once; its
      polling thread ends only after that, and receives at most one more value before it does; and no
      broadcast or close ever finds the other end of a channel gone. */
  lemma PeerLifetime(policy: Policy, s: State, moves: seq<Move>, p: PeerId)
    requires Initial(s) && ValidRun(policy, s, moves)
    ensures var t := Run(policy, s, moves);
            p < |t.peers| ==>
              && t.peers[p].received <= t.peers[p].accepted
              && |t.peers[p].accepted| <= |t.peers[p].received| + CAPACITY
              && t.peers[p].closes <= 1 && t.peers[p].late <= 1
              && (t.peers[p].poller.Ended? ==> t.peers[p].closes == 1)
    ensures forall e :: e in Run(policy, s, moves).errors ==> e == Full
  {
    InitialInv(s);
    RunSafe(policy, s, moves);
    var t := Run(policy, s, moves);
    if p < |t.peers| {
      assert PeerOk(t.peers[p], t.calls[p]);
    }
  }

  // ----- a drained peer

  /** Peer p has been pushed and has left the list. */
  predicate Gone(s: State, p: PeerId) {
    p < |s.calls| == |s.peers| && s.calls[p].Pushed() && p !in s.vec
  }

  lemma StepGone(policy: Policy, s: State, m: Move, p: PeerId)
    requires Inv(s) && Enabled(policy, s, m) && Gone(s, p)
    ensures var t := Next(policy, s, m);
            Gone(t, p) && t.peers[p].accepted == s.peers[p].accepted
  {
    match m {
      case Poll(q) =>
      case CallStep(c) => CallGone(policy, s, c, p);
    }
  }

  lemma CallGone(policy: Policy, s: State, c: nat, p: PeerId)
    requires CallEnabled(policy, s, c) && Gone(s, p)
    ensures var t := NextCall(policy, s, c);
            Gone(t, p) && t.peers[p].accepted == s.peers[p].accepted
  {
    StepSizes(policy, s, c);
    if s.calls[c].BroadcastSend? {
      assert s.vec[s.calls[c].i] in s.vec;
    }
  }

  /** Once drained, a peer is never listed again, and no broadcast reaches it. */
  lemma {:induction false} GoneForGood(policy: Policy, s: State, moves: seq<Move>, p: PeerId)
    requires Inv(s) && ValidRun(policy, s, moves) && Gone(s, p)
    ensures var t := Run(policy, s, moves);
            Gone(t, p) && t.peers[p].accepted == s.peers[p].accepted
    decreases |moves|
  {
    hide Inv, Next, Enabled;
    if moves != [] {
      StepGone(policy, s, moves[0], p);
      StepSafe(policy, s, moves[0]);
      GoneForGood(policy, Next(policy, s, moves[0]), moves[1..], p);
    }
  }

  // ----- a close

  predicate Closed(s: State, p: PeerId) { p < |s.peers| && s.peers[p].closes == 1 }

  /** Close call c has drained the peers in `all`: each has been told to close, or is still to do. */
  ghost predicate Closing(s: State, c: nat, all: seq<PeerId>) {
    && c < |s.calls|
    && match s.calls[c]
       case CloseNext(todo) => forall p :: p in all ==> p in todo || Closed(s, p)
       case CloseSend(q, todo) => forall p :: p in all ==> p == q || p in todo || Closed(s, p)
       case CloseSent(_, todo) => forall p :: p in all ==> p in todo || Closed(s, p)
       case CloseDone => forall p :: p in all ==> Closed(s, p)
       case Panicked => true
       case _ => false
  }

  /** Only the send of a close message changes the number of them. */
  lemma ClosesKept(policy: Policy, s: State, c: nat)
    requires CallEnabled(policy, s, c)
    ensures var t := NextCall(policy, s, c);
            |t.peers| == |s.peers|
            && forall p :: 0 <= p < |s.peers| && s.calls[c] != CloseSend(p, if s.calls[c].CloseSend?
                then s.calls[c].todo else [])
                 ==> t.peers[p].closes == s.peers[p].closes
  {
  }

  /** Nobody is ever un-told to close. */
  lemma ClosedStays(policy: Policy, s: State, m: Move, p: PeerId)
    requires Inv(s) && Enabled(policy, s, m) && Closed(s, p)
    ensures Closed(Next(policy, s, m), p)
  {
    match m {
      case Poll(q) => assert PollPeer(s.peers[q]).closes == s.peers[q].closes;
      case CallStep(c) =>
        if s.calls[c].CloseSend? {
          TargetOpen(s, c);
        }
        ClosesKept(policy, s, c);
        hide Inv, NextCall;
    }
  }

  lemma StepClosing(policy: Policy, s: State, m: Move, c: nat, all: seq<PeerId>)
    requires Inv(s) && Enabled(policy, s, m) && Closing(s, c, all)
    ensures Closing(Next(policy, s, m), c, all)
  {
    var t := Next(policy, s, m);
    forall p | Closed(s, p) ensures Closed(t, p) {
      ClosedStays(policy, s, m, p);
    }
    if m.CallStep? {
      StepSizes(policy, s, m.call);
    }
    if m == CallStep(c) {
      OwnClosing(policy, s, c, all);
    } else {
      assert |t.calls| == |s.calls| && t.calls[c] == s.calls[c];
      hide Inv, Next, Closed;
    }
  }

  lemma OwnClosing(policy: Policy, s: State, c: nat, all: seq<PeerId>)
    requires Inv(s) && CallEnabled(policy, s, c) && Closing(s, c, all)
    requires forall p :: Closed(s, p) ==> Closed(NextCall(policy, s, c), p)
    ensures Closing(NextCall(policy, s, c), c, all)
  {
    hide Inv, Closed;
    match s.calls[c] {
      case CloseNext(todo) =>
        hide CallEnabled;
        if todo != [] {
          assert todo == [todo[0]] + todo[1..];
        }
      case CloseSend(q, todo) =>
        SendCloses(policy, s, c);
        hide CallEnabled, NextCall;
      case _ =>
        hide CallEnabled;
    }
  }

  lemma SendCloses(policy: Policy, s: State, c: nat)
    requires Inv(s) && CallEnabled(policy, s, c) && s.calls[c].CloseSend?
    ensures var t, call := NextCall(policy, s, c), s.calls[c];
            c < |t.calls| && (t.calls[c].Panicked? || (t.calls[c] == CloseSent(call.peer, call.todo)
                && Closed(t, call.peer)))
  {
    TargetOpen(s, c);
    var q := s.calls[c].peer;
    assert PeerOk(s.peers[q], s.calls[q]);
    hide Inv, SendClose;
    if s.peers[q].Started() {
      SendCloseOk(s.peers[q], s.calls[q]);
    }
  }

  lemma {:induction false} RunClosing(policy: Policy, s: State, moves: seq<Move>, c: nat, all: seq<PeerId>)
    requires Inv(s) && ValidRun(policy, s, moves) && Closing(s, c, all)
    ensures Closing(Run(policy, s, moves), c, all)
    decreases |moves|
  {
    hide Inv, Next, Enabled, Closing;
    if moves != [] {
      StepClosing(policy, s, moves[0], c, all);
      StepSafe(policy, s, moves[0]);
      RunClosing(policy, Next(policy, s, moves[0]), moves[1..], c, all);
    }
  }

  /** When close_peers returns, every peer that was listed when it got the registry has been told to
      close exactly once, whatever happened in between; peers pushed later are untouched by it. */
  lemma CloseReachesAll(policy: Policy, s: State, c: nat, moves: seq<Move>)
    requires Inv(s) && CallEnabled(policy, s, c) && s.calls[c].CloseLock?
    requires ValidRun(policy, NextCall(policy, s, c), moves)
    ensures var t := Run(policy, NextCall(policy, s, c), moves);
            c < |t.calls| && (t.calls[c].CloseDone? ==> forall p :: p in s.vec ==> Closed(t, p))
  {
    StepSafe(policy, s, CallStep(c));
    RunClosing(policy, NextCall(policy, s, c), moves, c, s.vec);
  }

  // ----- a broadcast

  /** What broadcast call c, which got the registry in state s0, has done so far: the first n listed
      peers have v, or were refused it because their queue was full, and the other peers are untouched;
      there is a new error exactly if some peer was refused. */
  ghost predicate Delivered(s0: State, s: State, v: Val, n: nat) {
    && s.vec == s0.vec && |s.peers| == |s0.peers| && n <= |s.vec|
    && (forall k :: 0 <= k < |s.vec| ==> s.vec[k] < |s.peers|)
    && (forall k :: 0 <= k < n ==> Got(s0, s, v, s.vec[k]) || Refused(s0, s, s.vec[k]))
    && (forall k :: n <= k < |s.vec| ==> Untouched(s0, s, s.vec[k]))
    && |s0.errors| <= |s.errors|
    && (|s.errors| == |s0.errors| <==> forall k :: 0 <= k < n ==> Got(s0, s, v, s.vec[k]))
  }

  /** Peer p has accepted v since s0, and nothing else. */
  predicate Got(s0: State, s: State, v: Val, p: PeerId) {
    p < |s.peers| && p < |s0.peers| && s.peers[p].accepted == s0.peers[p].accepted + [v]
  }

  /** Peer p has accepted nothing since s0, when its queue was full. */
  predicate Refused(s0: State, s: State, p: PeerId) {
    && p < |s.peers| && p < |s0.peers| && s.peers[p].accepted == s0.peers[p].accepted
    && |s0.peers[p].queue| == CAPACITY
  }

  /** Peer p has accepted nothing since s0; its queue, if it has changed, has been emptied by polling. */
  predicate Untouched(s0: State, s: State, p: PeerId) {
    && p < |s.peers| && p < |s0.peers| && s.peers[p].accepted == s0.peers[p].accepted
    && |s.peers[p].queue| <= |s0.peers[p].queue| <= CAPACITY
  }

  ghost predicate Broadcasting(s0: State, s: State, c: nat, v: Val) {
    && c < |s.calls|
    && match s.calls[c]
       case BroadcastNext(x, i) => x == v && Delivered(s0, s, v, i)
       case BroadcastSend(x, i) => x == v && i < |s.vec| && Delivered(s0, s, v, i)
       case BroadcastSent(x, i) => x == v && i < |s.vec| && Delivered(s0, s, v, i + 1)
       case _ => false
  }

  /** The call is still in its loop, or has left it. */
  predicate InLoop(s: State, c: nat) {
    c < |s.calls| && (s.calls[c].BroadcastNext? || s.calls[c].BroadcastSend? || s.calls[c].BroadcastSent?)
  }

  lemma DeliveredFrame(s0: State, s: State, t: State, v: Val, n: nat)
    requires Delivered(s0, s, v, n) && t.vec == s.vec && |t.peers| == |s.peers| && t.errors == s.errors
    requires forall p :: 0 <= p < |s.peers| ==>
               t.peers[p].accepted == s.peers[p].accepted && |t.peers[p].queue| <= |s.peers[p].queue|
    ensures Delivered(s0, t, v, n)
  {
    forall p: PeerId
      ensures Got(s0, t, v, p) == Got(s0, s, v, p) && Refused(s0, t, p) == Refused(s0, s, p)
      ensures Untouched(s0, s, p) ==> Untouched(s0, t, p)
    {}
  }

  lemma OtherBroadcasting(policy: Policy, s0: State, s: State, m: Move, c: nat, v: Val)
    requires Inv(s) && Enabled(policy, s, m) && Broadcasting(s0, s, c, v) && m != CallStep(c)
    ensures Broadcasting(s0, Next(policy, s, m), c, v)
  {
    var t := Next(policy, s, m);
    match m {
      case Poll(_) =>
      case CallStep(d) =>
        if s.calls[d].HoldsRegistry() || s.calls[d].Start() {
          Alone(policy, s, d, c);
          assert false;
        }
        OutsideStep(policy, s, d);
        StepSizes(policy, s, d);
    }
    hide Inv, Delivered;
    var n := if s.calls[c].BroadcastSent? then s.calls[c].i + 1 else s.calls[c].i;
    DeliveredFrame(s0, s, t, v, n);
  }

  /** The step that gives the next listed peer the value, or finds its queue full. */
  lemma DeliverOne(s0: State, s: State, t: State, v: Val, i: nat)
    requires Delivered(s0, s, v, i) && i < |s.vec| && Distinct(s.vec)
    requires t.vec == s.vec && |t.peers| == |s.peers|
    requires forall p :: 0 <= p < |s.peers| && p != s.vec[i] ==> t.peers[p] == s.peers[p]
    requires (t.peers[s.vec[i]].accepted == s.peers[s.vec[i]].accepted + [v] && t.errors == s.errors)
             || (t.peers[s.vec[i]].accepted == s.peers[s.vec[i]].accepted && |t.errors| == |s.errors| + 1
                 && |s.peers[s.vec[i]].queue| == CAPACITY)
    ensures Delivered(s0, t, v, i + 1)
  {
    var q := s.vec[i];
    forall k | 0 <= k < |s.vec| && k != i
      ensures Got(s0, t, v, t.vec[k]) == Got(s0, s, v, s.vec[k]) && Refused(s0, t, t.vec[k]) == Refused(s0, s, s.vec[k])
      ensures Untouched(s0, t, t.vec[k]) == Untouched(s0, s, s.vec[k])
    {
      assert s.vec[k] != q;
    }
    assert Untouched(s0, s, q);
    assert t.errors == s.errors ==> Got(s0, t, v, q);
    assert |t.errors| == |s.errors| + 1 ==> Refused(s0, t, q) && !Got(s0, t, v, q);
  }

  lemma SendDelivers(policy: Policy, s0: State, s: State, c: nat, v: Val)
    requires Inv(s) && CallEnabled(policy, s, c) && Broadcasting(s0, s, c, v) && s.calls[c].BroadcastSend?
    ensures NextCall(policy, s, c).calls[c].Panicked? || Broadcasting(s0, NextCall(policy, s, c), c, v)
  {
    var t, i := NextCall(policy, s, c), s.calls[c].i;
    TargetOpen(s, c);
    var p := s.vec[i];
    assert PeerOk(s.peers[p], s.calls[p]);
    if s.peers[p].Started() {
      TrySendOk(s.peers[p], s.calls[p], v);
      assert Distinct(s.vec);
      hide Inv, Delivered, TrySend;
      DeliverOne(s0, s, t, v, i);
    }
  }

  lemma OwnBroadcasting(policy: Policy, s0: State, s: State, c: nat, v: Val)
    requires Inv(s) && CallEnabled(policy, s, c) && Broadcasting(s0, s, c, v)
    ensures InLoop(NextCall(policy, s, c), c) ==> Broadcasting(s0, NextCall(policy, s, c), c, v)
  {
    hide Inv, Delivered;
    if s.calls[c].BroadcastSend? {
      hide Broadcasting, NextCall;
      SendDelivers(policy, s0, s, c, v);
    } else {
      var t := NextCall(policy, s, c);
      var n := if s.calls[c].BroadcastSent? then s.calls[c].i + 1 else s.calls[c].i;
      DeliveredFrame(s0, s, t, v, n);
    }
  }

  ghost predicate StaysInLoop(policy: Policy, s: State, c: nat, moves: seq<Move>)
    requires ValidRun(policy, s, moves)
    decreases |moves|
  {
    InLoop(s, c) && (moves == [] || StaysInLoop(policy, Next(policy, s, moves[0]), c, moves[1..]))
  }

  lemma {:induction false} RunBroadcasting(policy: Policy, s0: State, s: State, moves: seq<Move>, c: nat, v: Val)
    requires Inv(s) && ValidRun(policy, s, moves) && Broadcasting(s0, s, c, v) && StaysInLoop(policy, s, c, moves)
    ensures Broadcasting(s0, Run(policy, s, moves), c, v)
    decreases |moves|
  {
    hide Inv, Broadcasting, InLoop, Next, NextCall, CallEnabled;
    if moves != [] {
      if moves[0] == CallStep(c) {
        OwnBroadcasting(policy, s0, s, c, v);
        NextIsNextCall(policy, s, c);
      } else {
        OtherBroadcasting(policy, s0, s, moves[0], c, v);
      }
      StepSafe(policy, s, moves[0]);
      RunBroadcasting(policy, s0, Next(policy, s, moves[0]), moves[1..], c, v);
    }
  }

  lemma NextIsNextCall(policy: Policy, s: State, c: nat)
    requires CallEnabled(policy, s, c)
    ensures Next(policy, s, CallStep(c)) == NextCall(policy, s, c)
  {
  }

  /** When the loop of a broadcast of v has gone over all listed peers, the list is still what it was
      when the broadcast got the registry, every listed peer has accepted v exactly once and nothing
      else since, except for peers whose queue was full when it got the registry, and there is a
      "broadcast err!" exactly if some peer was left out for that reason. */
  lemma BroadcastReachesAll(policy: Policy, s: State, c: nat, v: Val, moves: seq<Move>)
    requires Inv(s) && c < |s.calls| && s.calls[c] == BroadcastNext(v, 0)
    requires ValidRun(policy, s, moves) && StaysInLoop(policy, s, c, moves)
    ensures var t := Run(policy, s, moves);
            c < |t.calls| && (t.calls[c] == BroadcastNext(v, |t.vec|) ==> Delivered(s, t, v, |s.vec|))
  {
    forall k | 0 <= k < |s.vec| ensures s.vec[k] < |s.peers| && Untouched(s, s, s.vec[k]) {
      assert s.vec[k] in s.vec;
      assert PeerOk(s.peers[s.vec[k]], s.calls[s.vec[k]]);
    }
    assert Delivered(s, s, v, 0);
    RunBroadcasting(policy, s, s, moves, c, v);
  }
}
