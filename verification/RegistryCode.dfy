/** The registry as the source writes it: an object whose fields the calls update under the locks.
    Between any two steps of a call the others may take any steps (`env`), and while a call waits for a
    lock they may too (`waits`). */
module RegistryCode {
  import opened Common
  import opened RegistryMachine
  import opened RegistrySafety
  import opened RegistryLife
  import opened RegistryProgress

  /** What a call wants to have done when it returns. */
  datatype Goal =
    | Join
    | Deliver(at: State, v: Val)      // v to every peer listed in state `at`
    | CloseAll(all: seq<PeerId>)

  /** The call has done so far what it should. */
  ghost predicate Underway(goal: Goal, s: State, c: nat) {
    && c < |s.calls|
    && match goal
       case Join => true
       case Deliver(at, v) => Broadcasting(at, s, c, v)
       case CloseAll(all) => Closing(s, c, all)
  }

  lemma OtherUnderway(policy: Policy, goal: Goal, s: State, m: Move, c: nat)
    requires Inv(s) && Enabled(policy, s, m) && m != CallStep(c) && Underway(goal, s, c)
    ensures var t := Next(policy, s, m);
            |t.calls| == |s.calls| && t.calls[c] == s.calls[c] && Underway(goal, t, c)
  {
    if m.CallStep? {
      StepSizes(policy, s, m.call);
    }
    hide Inv, Broadcasting, Closing;
    match goal {
      case Join =>
      case Deliver(at, v) => OtherBroadcasting(policy, at, s, m, c, v);
      case CloseAll(all) => StepClosing(policy, s, m, c, all);
    }
  }

  class Peers {
    var owner: Option<nat>
    var poisoned: bool
    var vec: seq<PeerId>
    var peers: seq<Peer>
    var calls: seq<Call>
    var errors: seq<SendError>
    const policy: Policy
    ghost const start: State
    ghost var history: seq<Move>

    function Snapshot(): State
      reads this
    {
      State(owner, poisoned, vec, peers, calls, errors)
    }

    /** The fields were reached from an empty registry by the moves in `history`. */
    ghost predicate Valid()
      reads this
    {
      && Initial(start) && ValidRun(policy, start, history) && Run(policy, start, history) == Snapshot()
      && Inv(Snapshot())
    }

    constructor (policy: Policy, calls: seq<Call>)
      requires forall c :: 0 <= c < |calls| ==> calls[c].Start()
      ensures Valid() && this.policy == policy && this.calls == calls && vec == [] && history == []
    {
      this.policy, this.calls, owner, poisoned, vec, errors := policy, calls, None, false, [], [];
      peers := seq(|calls|, _ => NewPeer());
      start, history := State(None, false, [], seq(|calls|, _ => NewPeer()), calls, []), [];
      new;
      InitialInv(start);
    }

    ghost method Record(s: State, m: Move)
      requires Initial(start) && ValidRun(policy, start, history) && Run(policy, start, history) == s
      requires Inv(s) && Enabled(policy, s, m) && Next(policy, s, m) == Snapshot()
      modifies `history
      ensures Valid() && history == old(history) + [m]
      ensures Measure(Snapshot()) + (if m.CallStep? then 1 else 0) <= Measure(s)
    {
      hide Inv, Next, Enabled, Initial, Measure;
      StepSafe(policy, s, m);
      StepLowersMeasure(policy, s, m);
      RunCons(policy, s, m, []);
      RunAppend(policy, start, history, [m]);
      history := history + [m];
    }

    // ----- the others

    /** A step of another call, or of a polling thread, taken from the machine. */
    method OtherStep(c: nat, m: Move, ghost goal: Goal)
      requires Valid() && Enabled(policy, Snapshot(), m) && m != CallStep(c) && Underway(goal, Snapshot(), c)
      modifies this
      ensures Valid() && history == old(history) + [m]
      ensures |calls| == old(|calls|) && calls[c] == old(calls[c]) && Underway(goal, Snapshot(), c)
      ensures Measure(Snapshot()) + (if m.CallStep? then 1 else 0) <= old(Measure(Snapshot()))
    {
      ghost var s := Snapshot();
      OtherUnderway(policy, goal, s, m, c);
      hide Inv, Underway, Initial, Enabled, Next, Measure;
      var t := Next(policy, Snapshot(), m);
      owner, poisoned, vec, peers, calls, errors := t.owner, t.poisoned, t.vec, t.peers, t.calls, t.errors;
      Record(s, m);
    }

    /** The others take the given steps, as far as they can. */
    method Others(c: nat, moves: seq<Move>, ghost goal: Goal)
      requires Valid() && Underway(goal, Snapshot(), c)
      modifies this
      ensures Valid() && old(history) <= history
      ensures |calls| == old(|calls|) && calls[c] == old(calls[c]) && Underway(goal, Snapshot(), c)
      ensures Measure(Snapshot()) <= old(Measure(Snapshot()))
      ensures moves == [] ==> Snapshot() == old(Snapshot())
    {
      hide Inv, Initial, Enabled, Next, Measure;
      for i := 0 to |moves|
        invariant Valid() && old(history) <= history
        invariant |calls| == old(|calls|) && c < |calls| && calls[c] == old(calls[c]) && Underway(goal, Snapshot(), c)
        invariant Measure(Snapshot()) <= old(Measure(Snapshot()))
        invariant moves == [] ==> Snapshot() == old(Snapshot())
      {
        if moves[i] != CallStep(c) && Enabled(policy, Snapshot(), moves[i]) {
          OtherStep(c, moves[i], goal);
        }
      }
    }

    /** Call c waits until it can take its next step.  While it cannot, some other call can; after that
        the others may do anything, and may get first what c waits for.  The wait ends because every step
        of a call brings that call closer to its end. */
    method Wait(c: nat, env: nat -> seq<Move>, ghost goal: Goal)
      requires Valid() && Underway(goal, Snapshot(), c) && !calls[c].Done()
      modifies this
      ensures Valid() && old(history) <= history && CallEnabled(policy, Snapshot(), c)
      ensures |calls| == old(|calls|) && calls[c] == old(calls[c]) && Underway(goal, Snapshot(), c)
      ensures Measure(Snapshot()) <= old(Measure(Snapshot()))
      ensures old(CallEnabled(policy, Snapshot(), c)) ==> Snapshot() == old(Snapshot())
    {
      hide Inv, Initial, CallEnabled, Next, Measure;
      var tick := 0;
      while !CallEnabled(policy, Snapshot(), c)
        invariant Valid() && old(history) <= history
        invariant |calls| == old(|calls|) && c < |calls| && calls[c] == old(calls[c]) && Underway(goal, Snapshot(), c)
        invariant Measure(Snapshot()) <= old(Measure(Snapshot()))
        invariant old(CallEnabled(policy, Snapshot(), c)) ==> Snapshot() == old(Snapshot())
        decreases Measure(Snapshot())
      {
        ghost var w := DeadlockFree(policy, Snapshot(), c);
        InRange(policy, Snapshot(), w);
        assert 0 <= w < |calls| && CallEnabled(policy, Snapshot(), w);
        var d: nat :| d < |calls| && CallEnabled(policy, Snapshot(), d);
        OtherStep(c, CallStep(d), goal);
        Others(c, env(tick), goal);
        tick := tick + 1;
      }
    }

    /** A step of call c that has just been carried out on the fields. */
    ghost method RecordCall(s: State, c: nat)
      requires Initial(start) && ValidRun(policy, start, history) && Run(policy, start, history) == s
      requires Inv(s) && CallEnabled(policy, s, c) && NextCall(policy, s, c) == Snapshot()
      modifies `history
      ensures Valid() && history == old(history) + [CallStep(c)]
      ensures Measure(Snapshot()) < Measure(s)
    {
      hide Inv, NextCall, CallEnabled, Initial, Measure;
      Record(s, CallStep(c));
    }

    // ----- the accesses of an add_peer

    /** `peers.write().unwrap()`. */
    method LockRegistry(c: nat, locked: Call)
      requires Valid() && CallEnabled(policy, Snapshot(), c)
      requires (calls[c].AddLock? && locked == AddPush)
               || (calls[c].BroadcastLock? && locked == BroadcastNext(calls[c].val, 0))
      modifies this
      ensures Valid() && history == old(history) + [CallStep(c)] && Snapshot() == NextCall(policy, old(Snapshot()), c)
      ensures calls == old(calls)[c := if poisoned then Panicked else locked] && poisoned == old(poisoned)
      ensures vec == old(vec) && peers == old(peers) && errors == old(errors)
      ensures Measure(Snapshot()) < old(Measure(Snapshot()))
    {
      ghost var s := Snapshot();
      if poisoned {
        calls := calls[c := Panicked];
      } else {
        owner, calls := Some(c), calls[c := locked];
      }
      RecordCall(s, c);
    }

    method Push(c: nat)
      requires Valid() && CallEnabled(policy, Snapshot(), c) && calls[c].AddPush?
      modifies this
      ensures Valid() && history == old(history) + [CallStep(c)] && Snapshot() == NextCall(policy, old(Snapshot()), c)
      ensures calls == old(calls)[c := AddUnlock] && vec == old(vec) + [c] && peers == old(peers)
    {
      ghost var s := Snapshot();
      vec, calls := vec + [c], calls[c := AddUnlock];
      RecordCall(s, c);
    }

    /** The guard of the registry goes out of scope. */
    method UnlockRegistry(c: nat, unlocked: Call)
      requires Valid() && CallEnabled(policy, Snapshot(), c)
      requires (calls[c].AddUnlock? && unlocked == AddSleep)
               || (calls[c].BroadcastNext? && calls[c].i >= |vec| && unlocked == BroadcastDone)
               || (calls[c] == CloseNext([]) && unlocked == CloseDone)
      modifies this
      ensures Valid() && history == old(history) + [CallStep(c)] && Snapshot() == NextCall(policy, old(Snapshot()), c)
      ensures calls == old(calls)[c := unlocked] && owner == None
      ensures peers == old(peers) && vec == old(vec) && errors == old(errors)
    {
      ghost var s := Snapshot();
      owner, calls := None, calls[c := unlocked];
      RecordCall(s, c);
    }

    method Wake(c: nat)
      requires Valid() && CallEnabled(policy, Snapshot(), c) && calls[c].AddSleep?
      modifies this
      ensures Valid() && history == old(history) + [CallStep(c)] && Snapshot() == NextCall(policy, old(Snapshot()), c)
      ensures calls == old(calls)[c := AddWait] && vec == old(vec) && peers == old(peers) && owner == old(owner)
    {
      ghost var s := Snapshot();
      calls := calls[c := AddWait];
      RecordCall(s, c);
    }

    /** `insert_peer.write().unwrap()`. */
    method LockPeer(c: nat)
      requires Valid() && CallEnabled(policy, Snapshot(), c) && calls[c].AddWait?
      modifies this
      ensures Valid() && history == old(history) + [CallStep(c)] && Snapshot() == NextCall(policy, old(Snapshot()), c)
      ensures calls == old(calls)[c := AddStart] && vec == old(vec) && c < |peers|
      ensures peers == old(peers)[c := old(peers)[c].(writer := Some(c))]
    {
      ghost var s := Snapshot();
      peers, calls := peers[c := peers[c].(writer := Some(c))], calls[c := AddStart];
      RecordCall(s, c);
    }

    /** `start`: make the two channels and spawn the polling thread. */
    method StartPeer(c: nat)
      requires Valid() && CallEnabled(policy, Snapshot(), c) && calls[c].AddStart?
      modifies this
      ensures Valid() && history == old(history) + [CallStep(c)] && Snapshot() == NextCall(policy, old(Snapshot()), c)
      ensures calls == old(calls)[c := AddStartUnlock] && vec == old(vec) && c < |peers|
      ensures peers == old(peers)[c := old(peers)[c].(poller := AtRecv)]
    {
      ghost var s := Snapshot();
      peers, calls := peers[c := peers[c].(poller := AtRecv)], calls[c := AddStartUnlock];
      RecordCall(s, c);
    }

    method UnlockPeer(c: nat)
      requires Valid() && CallEnabled(policy, Snapshot(), c) && calls[c].AddStartUnlock?
      modifies this
      ensures Valid() && history == old(history) + [CallStep(c)] && Snapshot() == NextCall(policy, old(Snapshot()), c)
      ensures calls == old(calls)[c := Added] && vec == old(vec) && c < |peers|
      ensures peers == old(peers)[c := old(peers)[c].(writer := None)]
    {
      ghost var s := Snapshot();
      peers, calls := peers[c := peers[c].(writer := None)], calls[c := Added];
      RecordCall(s, c);
    }

    /** `add_peer`: list a new peer, sleep, and start it.  It always returns, and unless the registry
        is poisoned when it gets there, the peer has been started. */
    method AddPeer(c: nat, env: nat -> seq<Move>, waits: nat -> nat -> seq<Move>)
      requires Valid() && c < |calls| && calls[c].AddLock?
      modifies this
      ensures Valid() && old(history) < history && |calls| == old(|calls|)
      ensures calls[c].Panicked? || (calls[c].Added? && c < |peers| && peers[c].Started())
      ensures Quiet(env) && old(owner) == None && !old(poisoned) ==>
                calls[c].Added? && vec == old(vec) + [c] && StartedOnly(old(peers), peers, c)
    {
      hide Inv, Initial, Measure, Underway, Run, ValidRun;
      Acquire(c, AddPush, env, waits);
      if !calls[c].Panicked? {
        ListPeer(c, env);
        StartLater(c, env, waits);
      }
    }

    /** `peers.write().unwrap()`, with the wait for it. */
    method Acquire(c: nat, locked: Call, env: nat -> seq<Move>, waits: nat -> nat -> seq<Move>)
      requires Valid() && c < |calls|
      requires (calls[c].AddLock? && locked == AddPush)
               || (calls[c].BroadcastLock? && locked == BroadcastNext(calls[c].val, 0))
      modifies this
      ensures Valid() && old(history) < history && |calls| == old(|calls|)
      ensures calls[c] == if poisoned then Panicked else locked
      ensures Quiet(env) && old(owner) == None ==>
                poisoned == old(poisoned) && vec == old(vec) && peers == old(peers) && errors == old(errors)
    {
      hide Inv, Initial, NextCall, CallEnabled, Measure, Run, ValidRun;
      AwaitRegistry(c, env, waits);
      LockRegistry(c, locked);
    }

    /** A call comes to the registry's lock and waits until it is free. */
    method AwaitRegistry(c: nat, env: nat -> seq<Move>, waits: nat -> nat -> seq<Move>)
      requires Valid() && c < |calls| && calls[c].Start()
      modifies this
      ensures Valid() && old(history) <= history && CallEnabled(policy, Snapshot(), c)
      ensures |calls| == old(|calls|) && calls[c] == old(calls[c])
      ensures Quiet(env) && old(owner) == None ==> Snapshot() == old(Snapshot())
    {
      FreeToLock(policy, Snapshot(), c);
      hide Inv, Initial, NextCall, CallEnabled, Measure, Run, ValidRun;
      Others(c, env(0), Join);
      Wait(c, waits(0), Join);
    }

    /** The block of `add_peer` that holds the registry, and the sleep. */
    method ListPeer(c: nat, env: nat -> seq<Move>)
      requires Valid() && c < |calls| && calls[c].AddPush?
      modifies this
      ensures Valid() && old(history) < history && |calls| == old(|calls|) && calls[c].AddSleep?
      ensures Quiet(env) ==> vec == old(vec) + [c] && peers == old(peers) && owner == None
    {
      hide Inv, Initial, NextCall, CallEnabled, Measure, Run, ValidRun;
      Others(c, env(1), Join);
      Ready(policy, Snapshot(), c);
      Push(c);
      Others(c, env(2), Join);
      Ready(policy, Snapshot(), c);
      UnlockRegistry(c, AddSleep);
      Others(c, env(3), Join);
    }

    /** The rest of `add_peer`, after the sleep. */
    method StartLater(c: nat, env: nat -> seq<Move>, waits: nat -> nat -> seq<Move>)
      requires Valid() && c < |calls| && calls[c].AddSleep?
      modifies this
      ensures Valid() && old(history) < history && |calls| == old(|calls|)
      ensures calls[c].Added? && c < |peers| && peers[c].Started()
      ensures Quiet(env) && old(owner) == None ==> vec == old(vec) && StartedOnly(old(peers), peers, c)
    {
      hide Inv, Initial, NextCall, CallEnabled, Measure, Run, ValidRun;
      Ready(policy, Snapshot(), c);
      Wake(c);
      FreeToStart(policy, Snapshot(), c);
      Others(c, env(4), Join);
      Wait(c, waits(1), Join);
      LockPeer(c);
      Others(c, env(5), Join);
      Ready(policy, Snapshot(), c);
      StartPeer(c);
      Others(c, env(6), Join);
      Ready(policy, Snapshot(), c);
      UnlockPeer(c);
      AddedIsStarted(Snapshot(), c);
    }

    // ----- the accesses of a broadcast

    /** `peer.read().unwrap()` in the loop of a broadcast. */
    method ReadListed(c: nat)
      requires Valid() && CallEnabled(policy, Snapshot(), c) && calls[c].BroadcastNext? && calls[c].i < |vec|
      modifies this
      ensures Valid() && history == old(history) + [CallStep(c)] && Snapshot() == NextCall(policy, old(Snapshot()), c)
      ensures calls == old(calls)[c := BroadcastSend(old(calls)[c].val, old(calls)[c].i)]
      ensures Measure(Snapshot()) < old(Measure(Snapshot()))
    {
      ghost var s := Snapshot();
      var p := vec[calls[c].i];
      peers := peers[p := peers[p].(readers := peers[p].readers + {c})];
      calls := calls[c := BroadcastSend(calls[c].val, calls[c].i)];
      RecordCall(s, c);
    }

    /** `unwrap` of None: the guards of the peer and of the registry are dropped while unwinding. */
    method Unwind(c: nat, p: PeerId)
      requires Valid() && CallEnabled(policy, Snapshot(), c) && p < |peers| && !peers[p].Started()
      requires (calls[c].BroadcastSend? || calls[c].CloseSend?) && ReadTarget(Snapshot(), c) == Some(p)
      modifies this
      ensures Valid() && history == old(history) + [CallStep(c)] && Snapshot() == NextCall(policy, old(Snapshot()), c)
      ensures calls == old(calls)[c := Panicked] && poisoned
      ensures Measure(Snapshot()) < old(Measure(Snapshot()))
    {
      ghost var s := Snapshot();
      peers := peers[p := peers[p].(readers := peers[p].readers - {c})];
      owner, poisoned, calls := None, true, calls[c := Panicked];
      RecordCall(s, c);
    }

    /** `peer.send(val)`: unwrap the channel and `try_send`. */
    method SendTo(c: nat)
      requires Valid() && CallEnabled(policy, Snapshot(), c) && calls[c].BroadcastSend?
      modifies this
      ensures Valid() && history == old(history) + [CallStep(c)] && Snapshot() == NextCall(policy, old(Snapshot()), c)
      ensures calls == old(calls)[c := Panicked] || calls
              == old(calls)[c := BroadcastSent(old(calls)[c].val, old(calls)[c].i)]
      ensures Measure(Snapshot()) < old(Measure(Snapshot()))
    {
      var BroadcastSend(v, i) := calls[c];
      var p := vec[i];
      if !peers[p].Started() {
        Unwind(c, p);
      } else {
        ghost var s := Snapshot();
        var (peer, e) := TrySend(peers[p], v);
        peers, errors, calls := peers[p := peer], WithError(errors, e), calls[c := BroadcastSent(v, i)];
        RecordCall(s, c);
      }
    }

    /** The guard of the peer goes out of scope at the end of a round of the loop. */
    method ReleasePeer(c: nat, p: PeerId, head: Call)
      requires Valid() && CallEnabled(policy, Snapshot(), c) && ReadTarget(Snapshot(), c) == Some(p)
      requires (calls[c].BroadcastSent? && head == BroadcastNext(calls[c].val, calls[c].i + 1))
               || (calls[c].CloseSent? && head == CloseNext(calls[c].todo))
      modifies this
      ensures Valid() && history == old(history) + [CallStep(c)] && Snapshot() == NextCall(policy, old(Snapshot()), c)
      ensures calls == old(calls)[c := head]
      ensures Measure(Snapshot()) < old(Measure(Snapshot()))
    {
      ghost var s := Snapshot();
      peers, calls := peers[p := peers[p].(readers := peers[p].readers - {c})], calls[c := head];
      RecordCall(s, c);
    }

    /** One round of the loop of a broadcast. */
    method SendOne(c: nat, env: nat -> seq<Move>, waits: nat -> nat -> seq<Move>, tick: nat,
        ghost at: State, ghost v: Val)
      requires Valid() && Broadcasting(at, Snapshot(), c, v) && calls[c].BroadcastNext? && calls[c].i < |vec|
      modifies this
      ensures Valid() && old(history) < history && |calls| == old(|calls|)
      ensures calls[c].Panicked? || (calls[c].BroadcastNext? && Broadcasting(at, Snapshot(), c, v))
      ensures Measure(Snapshot()) < old(Measure(Snapshot()))
    {
      hide Inv, Initial, NextCall, CallEnabled, Measure, Delivered, ValidRun, Run;
      ghost var goal := Deliver(at, v);
      ListFixed(at, Snapshot(), c, v);
      Wait(c, waits(tick), goal);
      ListFixed(at, Snapshot(), c, v);
      ghost var s := Snapshot();
      ReadListed(c);
      OwnBroadcasting(policy, at, s, c, v);
      Others(c, env(tick), goal);
      SendInHand(c, env, tick, at, v);
    }

    /** The rest of the round: send, and let go of the peer. */
    method SendInHand(c: nat, env: nat -> seq<Move>, tick: nat, ghost at: State, ghost v: Val)
      requires Valid() && Broadcasting(at, Snapshot(), c, v) && calls[c].BroadcastSend?
      modifies this
      ensures Valid() && old(history) < history && |calls| == old(|calls|)
      ensures calls[c].Panicked? || (calls[c].BroadcastNext? && Broadcasting(at, Snapshot(), c, v))
      ensures Measure(Snapshot()) < old(Measure(Snapshot()))
    {
      hide Inv, Initial, NextCall, CallEnabled, Measure, Delivered, ValidRun, Run;
      ghost var goal := Deliver(at, v);
      Ready(policy, Snapshot(), c);
      ghost var s := Snapshot();
      SendTo(c);
      if !calls[c].Panicked? {
        OwnBroadcasting(policy, at, s, c, v);
        Others(c, env(tick + 1), goal);
        Ready(policy, Snapshot(), c);
        s := Snapshot();
        ReleasePeer(c, vec[calls[c].i], BroadcastNext(calls[c].val, calls[c].i + 1));
        OwnBroadcasting(policy, at, s, c, v);
      }
    }

    /** `broadcast`: get the registry and send the value to every listed peer.  It always returns.
        Unless it panics, every peer that was listed when it got the registry (after the moves `got`)
        had accepted the value exactly once when it was through the loop (after `through`), except
        those whose queue was full. */
    method Broadcast(c: nat, env: nat -> seq<Move>, waits: nat -> nat -> seq<Move>)
        returns (ghost got: seq<Move>, ghost through: seq<Move>)
      requires Valid() && c < |calls| && calls[c].BroadcastLock?
      modifies this
      ensures Valid() && old(history) < history && |calls| == old(|calls|)
      ensures calls[c].Panicked? || calls[c].BroadcastDone?
      ensures old(history) <= got <= through <= history
      ensures ValidRun(policy, start, got) && ValidRun(policy, start, through)
      ensures calls[c].BroadcastDone? ==>
                var at, end := Run(policy, start, got), Run(policy, start, through);
                Delivered(at, end, old(calls)[c].val, |at.vec|)
      ensures Quiet(env) && old(owner) == None && !old(poisoned) ==>
                Run(policy, start, got).vec == old(vec) && Run(policy, start, got).peers == old(peers)
    {
      hide Inv, Initial, Measure, Delivered, Underway;
      var v := calls[c].val;
      Acquire(c, BroadcastNext(v, 0), env, waits);
      got, through := history, history;
      if calls[c].Panicked? {
        return;
      }
      ghost var at := Snapshot();
      NothingDelivered(at, c, v);
      var tick := 1;
      while calls[c].BroadcastNext? && calls[c].i < |vec|
        invariant Valid() && got <= history && |calls| == old(|calls|)
        invariant calls[c].Panicked? || (calls[c].BroadcastNext? && Broadcasting(at, Snapshot(), c, v))
        decreases Measure(Snapshot())
      {
        SendOne(c, env, waits, tick, at, v);
        tick := tick + 2;
      }
      through := history;
      if !calls[c].Panicked? {
        Through(at, Snapshot(), c, v);
        HeadReady(policy, Snapshot(), c);
        UnlockRegistry(c, BroadcastDone);
      }
    }

    // ----- the accesses of a close

    /** `peers.write().unwrap()` and `drain(..)`. */
    method LockAndDrain(c: nat)
      requires Valid() && CallEnabled(policy, Snapshot(), c) && calls[c].CloseLock?
      modifies this
      ensures Valid() && history == old(history) + [CallStep(c)] && Snapshot() == NextCall(policy, old(Snapshot()), c)
      ensures calls == old(calls)[c := if poisoned then Panicked else CloseNext(old(vec))] && poisoned == old(poisoned)
      ensures !poisoned ==> vec == []
    {
      ghost var s := Snapshot();
      if poisoned {
        calls := calls[c := Panicked];
      } else {
        owner, calls, vec := Some(c), calls[c := CloseNext(vec)], [];
      }
      RecordCall(s, c);
    }

    /** `peer.read().unwrap()` for the next drained peer. */
    method ReadDrained(c: nat)
      requires Valid() && CallEnabled(policy, Snapshot(), c) && calls[c].CloseNext? && calls[c].todo != []
      modifies this
      ensures Valid() && history == old(history) + [CallStep(c)] && Snapshot() == NextCall(policy, old(Snapshot()), c)
      ensures calls == old(calls)[c := CloseSend(old(calls)[c].todo[0], old(calls)[c].todo[1..])]
      ensures Measure(Snapshot()) < old(Measure(Snapshot()))
    {
      ghost var s := Snapshot();
      var todo := calls[c].todo;
      var p := todo[0];
      peers := peers[p := peers[p].(readers := peers[p].readers + {c})];
      calls := calls[c := CloseSend(p, todo[1..])];
      RecordCall(s, c);
    }

    /** `peer.close()`: unwrap the channel and send on it. */
    method CloseOne(c: nat)
      requires Valid() && CallEnabled(policy, Snapshot(), c) && calls[c].CloseSend?
      modifies this
      ensures Valid() && history == old(history) + [CallStep(c)] && Snapshot() == NextCall(policy, old(Snapshot()), c)
      ensures calls == old(calls)[c := Panicked] || calls
              == old(calls)[c := CloseSent(old(calls)[c].peer, old(calls)[c].todo)]
      ensures Measure(Snapshot()) < old(Measure(Snapshot()))
    {
      var CloseSend(p, todo) := calls[c];
      if !peers[p].Started() {
        Unwind(c, p);
      } else {
        ghost var s := Snapshot();
        var (peer, e) := SendClose(peers[p]);
        peers, errors, calls := peers[p := peer], WithError(errors, e), calls[c := CloseSent(p, todo)];
        RecordCall(s, c);
      }
    }

    /** One round of the loop of a close. */
    method CloseNextPeer(c: nat, env: nat -> seq<Move>, waits: nat -> nat -> seq<Move>, tick: nat,
        ghost all: seq<PeerId>)
      requires Valid() && Closing(Snapshot(), c, all) && calls[c].CloseNext? && calls[c].todo != []
      modifies this
      ensures Valid() && old(history) < history && |calls| == old(|calls|)
      ensures calls[c].Panicked? || calls[c].CloseNext?
      ensures Closing(Snapshot(), c, all)
      ensures Measure(Snapshot()) < old(Measure(Snapshot()))
    {
      hide Inv, Initial, NextCall, CallEnabled, Measure, Closing, ValidRun, Run;
      ghost var goal := CloseAll(all);
      InSize(Snapshot(), c, all);
      Wait(c, waits(tick), goal);
      ghost var s := Snapshot();
      ReadDrained(c);
      OwnStepClosing(policy, s, c, all);
      Others(c, env(tick), goal);
      CloseInHand(c, env, tick, all);
    }

    /** The rest of the round: send the message, and let go of the peer. */
    method CloseInHand(c: nat, env: nat -> seq<Move>, tick: nat, ghost all: seq<PeerId>)
      requires Valid() && c < |calls| && Closing(Snapshot(), c, all) && calls[c].CloseSend?
      modifies this
      ensures Valid() && old(history) < history && |calls| == old(|calls|)
      ensures calls[c].Panicked? || calls[c].CloseNext?
      ensures Closing(Snapshot(), c, all)
      ensures Measure(Snapshot()) < old(Measure(Snapshot()))
    {
      hide Inv, Initial, NextCall, CallEnabled, Measure, Closing, ValidRun, Run;
      ghost var goal := CloseAll(all);
      Ready(policy, Snapshot(), c);
      ghost var s := Snapshot();
      CloseOne(c);
      OwnStepClosing(policy, s, c, all);
      if !calls[c].Panicked? {
        Others(c, env(tick + 1), goal);
        Ready(policy, Snapshot(), c);
        s := Snapshot();
        ReleasePeer(c, calls[c].peer, CloseNext(calls[c].todo));
        OwnStepClosing(policy, s, c, all);
      }
    }

    /** `close_peers`: get the registry, drain it, and tell every drained peer to close.  It always
        returns.  Unless it panics, every peer that was listed when it got the registry (after the
        moves `got`) has been told to close exactly once. */
    method ClosePeers(c: nat, env: nat -> seq<Move>, waits: nat -> nat -> seq<Move>)
        returns (ghost got: seq<Move>)
      requires Valid() && c < |calls| && calls[c].CloseLock?
      modifies this
      ensures Valid() && old(history) < history && |calls| == old(|calls|)
      ensures calls[c].Panicked? || calls[c].CloseDone?
      ensures old(history) <= got <= history && ValidRun(policy, start, got)
      ensures calls[c].CloseDone? ==> forall p :: p in Run(policy, start, got).vec ==> Closed(Snapshot(), p)
      ensures Quiet(env) && old(owner) == None ==> Run(policy, start, got) == old(Snapshot())
    {
      hide Inv, Initial, Measure, Closing, NextCall, CallEnabled;
      AwaitRegistry(c, env, waits);
      got := history;
      ghost var all := vec;
      LockAndDrain(c);
      if calls[c].Panicked? {
        return;
      }
      DrainBegins(Snapshot(), c, all);
      CloseDrained(c, env, waits, all);
    }

    /** The loop over the drained peers. */
    method CloseDrained(c: nat, env: nat -> seq<Move>, waits: nat -> nat -> seq<Move>, ghost all: seq<PeerId>)
      requires Valid() && c < |calls| && Closing(Snapshot(), c, all) && calls[c].CloseNext?
      modifies this
      ensures Valid() && old(history) < history && |calls| == old(|calls|)
      ensures calls[c].Panicked? || calls[c].CloseDone?
      ensures calls[c].CloseDone? ==> forall p :: p in all ==> Closed(Snapshot(), p)
    {
      hide Inv, Initial, Measure, Closing, NextCall, CallEnabled;
      var tick := 1;
      while calls[c].CloseNext? && calls[c].todo != []
        invariant Valid() && old(history) <= history && |calls| == old(|calls|)
        invariant calls[c].Panicked? || calls[c].CloseNext?
        invariant Closing(Snapshot(), c, all)
        invariant calls[c].CloseNext? || old(history) < history
        decreases Measure(Snapshot())
      {
        CloseNextPeer(c, env, waits, tick, all);
        tick := tick + 2;
      }
      if !calls[c].Panicked? {
        HeadReady(policy, Snapshot(), c);
        ghost var s := Snapshot();
        UnlockRegistry(c, CloseDone);
        OwnStepClosing(policy, s, c, all);
        AllClosed(Snapshot(), c, all);
      }
    }

    // ----- the polling thread

    /** `send_rx.try_recv()`. */
    method TryRecv(p: PeerId) returns (val: Option<Val>)
      requires Valid() && p < |peers| && peers[p].poller.AtRecv?
      modifies this
      ensures Valid() && history == old(history) + [Poll(p)] && Snapshot() == Next(policy, old(Snapshot()), Poll(p))
      ensures val == (if old(peers)[p].queue == [] then None else Some(old(peers)[p].queue[0]))
      ensures p < |peers| && peers[p].poller.AtClose?
    {
      ghost var s := Snapshot();
      var peer := peers[p];
      if peer.queue == [] {
        val, peers := None, peers[p := peer.(poller := AtClose)];
      } else {
        val := Some(peer.queue[0]);
        peers := peers[p := peer.(poller := AtClose, queue := peer.queue[1..],
            received := peer.received + [peer.queue[0]],
                                  late := peer.late + (if peer.closes > 0 then 1 else 0))];
      }
      Record(s, Poll(p));
    }

    /** `close_rx.try_recv()`; the thread leaves its loop if there is a message. */
    method TryClose(p: PeerId) returns (closing: bool)
      requires Valid() && p < |peers| && peers[p].poller.AtClose?
      modifies this
      ensures Valid() && history == old(history) + [Poll(p)] && Snapshot() == Next(policy, old(Snapshot()), Poll(p))
      ensures p < |peers| && closing == (old(peers)[p].closes == 1)
      ensures peers[p].poller == if closing then Ended else AtRecv
    {
      ghost var s := Snapshot();
      assert PeerOk(peers[p], calls[p]);
      var peer := peers[p];
      closing := peer.pending > 0;
      if closing {
        peers := peers[p := peer.(poller := Ended, pending := peer.pending - 1)];
      } else {
        peers := peers[p := peer.(poller := AtRecv)];
      }
      Record(s, Poll(p));
    }

    /** The loop of `poll`, watched for some rounds during which nobody else moves.  Every round takes
        the oldest waiting value, if there is one, and then looks for the close message; so a thread
        that has been told to close takes at most one more value and ends in its next round, and any
        other takes the first waiting values in order. */
    method PollLoop(p: PeerId, rounds: nat) returns (vals: seq<Val>, closing: bool)
      requires Valid() && p < |peers| && peers[p].poller.AtRecv?
      modifies this
      ensures Valid() && old(history) <= history && p < |peers|
      ensures closing == (rounds > 0 && old(peers)[p].closes == 1)
              && peers[p].poller == (if closing then Ended else AtRecv)
      ensures var n := if rounds == 0 then 0 else if closing then 1 else rounds;
              var taken := if n < |old(peers)[p].queue| then n else |old(peers)[p].queue|;
              && vals == old(peers)[p].queue[..taken] && peers[p].queue == old(peers)[p].queue[taken..]
              && peers[p].received == old(peers)[p].received + vals && peers[p].accepted == old(peers)[p].accepted
    {
      hide Inv, Initial, Run, ValidRun;
      vals, closing := [], false;
      var round := 0;
      while round < rounds && !closing
        invariant Valid() && old(history) <= history && p < |peers| && round <= rounds
        invariant peers[p].closes == old(peers)[p].closes && peers[p].accepted == old(peers)[p].accepted
        invariant peers[p].poller == (if closing then Ended else AtRecv)
        invariant closing == (round > 0 && old(peers)[p].closes == 1) && (closing ==> round == 1)
        invariant |vals| == if round < |old(peers)[p].queue| then round else |old(peers)[p].queue|
        invariant vals == old(peers)[p].queue[..|vals|] && peers[p].queue == old(peers)[p].queue[|vals|..]
        invariant peers[p].received == old(peers)[p].received + vals
        decreases rounds - round, !closing
      {
        var val := TryRecv(p);
        if val.Some? {
          vals := vals + [val.value];
        }
        closing := TryClose(p);
        round := round + 1;
      }
    }
  }

  /** Nobody else moves. */
  ghost predicate Quiet(env: nat -> seq<Move>) {
    forall tick :: env(tick) == []
  }

  /** Only peer c has changed: it has been started. */
  predicate StartedOnly(before: seq<Peer>, after: seq<Peer>, c: nat) {
    && c < |before| == |after|
    && after == before[c := before[c].(poller := AtRecv, writer := None)]
  }

  lemma FreeToLock(policy: Policy, s: State, c: nat)
    requires Inv(s) && c < |s.calls| && s.calls[c].Start()
    ensures s.owner == None ==> CallEnabled(policy, s, c)
  {
  }

  lemma FreeToStart(policy: Policy, s: State, c: nat)
    requires Inv(s) && c < |s.calls| && s.calls[c].AddWait?
    ensures s.owner == None ==> CallEnabled(policy, s, c)
  {
    assert LockOk(s, c);
    if s.owner == None {
      OnlyOwnerReads(s, c);
    }
  }

  /** Only locking makes a call wait. */
  lemma Ready(policy: Policy, s: State, c: nat)
    requires Inv(s) && c < |s.calls|
    requires var call := s.calls[c];
             call.AddPush? || call.AddUnlock? || call.AddSleep? || call.AddStart? || call.AddStartUnlock?
             || call.BroadcastSend? || call.BroadcastSent? || call.CloseSend? || call.CloseSent?
    ensures CallEnabled(policy, s, c)
  {
    assert CallOk(s, c);
    TargetExists(s, c);
  }

  /** At the end of its loop a call need not wait. */
  lemma HeadReady(policy: Policy, s: State, c: nat)
    requires Inv(s) && c < |s.calls|
    requires (s.calls[c].BroadcastNext? && s.calls[c].i >= |s.vec|) || s.calls[c] == CloseNext([])
    ensures CallEnabled(policy, s, c)
  {
  }

  lemma ListFixed(at: State, s: State, c: nat, v: Val)
    requires Broadcasting(at, s, c, v)
    ensures s.vec == at.vec && s.calls[c].val == v
    ensures !s.calls[c].BroadcastNext? ==> s.calls[c].i < |s.vec|
  {
  }

  lemma NothingDelivered(s: State, c: nat, v: Val)
    requires Inv(s) && c < |s.calls| && s.calls[c] == BroadcastNext(v, 0)
    ensures Broadcasting(s, s, c, v)
  {
    forall k | 0 <= k < |s.vec| ensures s.vec[k] < |s.peers| && Untouched(s, s, s.vec[k]) {
      assert s.vec[k] in s.vec;
      assert PeerOk(s.peers[s.vec[k]], s.calls[s.vec[k]]);
    }
  }

  lemma Through(at: State, s: State, c: nat, v: Val)
    requires Inv(s) && Broadcasting(at, s, c, v) && s.calls[c].BroadcastNext? && s.calls[c].i >= |s.vec|
    ensures Delivered(at, s, v, |at.vec|)
  {
  }

  lemma OwnStepClosing(policy: Policy, s: State, c: nat, all: seq<PeerId>)
    requires Inv(s) && CallEnabled(policy, s, c) && Closing(s, c, all)
    ensures Closing(NextCall(policy, s, c), c, all)
  {
    StepClosing(policy, s, CallStep(c), c, all);
  }

  lemma InSize(s: State, c: nat, all: seq<PeerId>)
    requires Closing(s, c, all)
    ensures c < |s.calls|
  {
  }

  lemma DrainBegins(s: State, c: nat, all: seq<PeerId>)
    requires c < |s.calls| && s.calls[c] == CloseNext(all)
    ensures Closing(s, c, all)
  {
  }

  lemma AllClosed(s: State, c: nat, all: seq<PeerId>)
    requires Closing(s, c, all) && s.calls[c].CloseDone?
    ensures forall p :: p in all ==> Closed(s, p)
  {
  }

  lemma AddedIsStarted(s: State, c: nat)
    requires Inv(s) && c < |s.calls| && s.calls[c].Added?
    ensures c < |s.peers| && s.peers[c].Started()
  {
    assert PeerOk(s.peers[c], s.calls[c]);
  }

  lemma InRange(policy: Policy, s: State, c: nat)
    requires CallEnabled(policy, s, c)
    ensures c < |s.calls|
  {
  }
}
