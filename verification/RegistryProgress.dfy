/** The registry never deadlocks, and every call ends: locks are only nested in the order registry,
    then peer, and add_peer holds one at a time. */
module RegistryProgress {
  import opened Common
  import opened RegistryMachine
  import opened RegistrySafety

  /** A call only ever looks at peers that exist. */
  lemma TargetExists(s: State, c: nat)
    requires Inv(s) && c < |s.calls|
    ensures ReadTarget(s, c).Some? ==> ReadTarget(s, c).value < |s.peers| && s.calls[ReadTarget(s, c).value].Pushed()
  {
    assert CallOk(s, c);
    match s.calls[c] {
      case BroadcastNext(_, i) => assert i < |s.vec| ==> s.vec[i] in s.vec;
      case BroadcastSend(_, i) => assert s.vec[i] in s.vec;
      case BroadcastSent(_, i) => assert s.vec[i] in s.vec;
      case CloseNext(todo) => assert todo != [] ==> todo[0] in todo;
      case CloseSend(p, todo) => CloseSendLists(s, p, todo);
      case _ =>
    }
  }

  /** Nobody reads a peer unless the registry's owner does. */
  lemma OnlyOwnerReads(s: State, p: PeerId)
    requires Inv(s) && p < |s.peers|
    requires s.owner.Some? ==> Reading(s, s.owner.value) != Some(p)
    ensures s.peers[p].readers == {}
  {
    assert LockOk(s, p);
    forall d: nat | d < |s.calls| ensures Reading(s, d) != Some(p) {
      if Reading(s, d).Some? {
        assert s.calls[d].HoldsRegistry();
      }
    }
    assert forall d :: d !in s.peers[p].readers;
  }

  /** The writer in the way of a reader can move. */
  lemma WriterMoves(policy: Policy, s: State, p: PeerId)
    requires Inv(s) && p < |s.peers| && !CanRead(policy, s, p)
    requires s.owner.Some? ==> Reading(s, s.owner.value) != Some(p)
    ensures CallEnabled(policy, s, p)
  {
    assert LockOk(s, p);
    OnlyOwnerReads(s, p);
  }

  /** No deadlock, for any number of calls and whether or not waiting writers keep readers out: as
      long as some call is unfinished, some call can take a step.  Polling threads are not counted. */
  lemma DeadlockFree(policy: Policy, s: State, w: nat) returns (c: nat)
    requires Inv(s) && w < |s.calls| && !s.calls[w].Done()
    ensures CallEnabled(policy, s, c)
  {
    if s.owner.Some? {
      var o := s.owner.value;
      assert s.calls[o].HoldsRegistry() && CallOk(s, o);
      TargetExists(s, o);
      if CallEnabled(policy, s, o) {
        c := o;
      } else {
        c := ReadTarget(s, o).value;
        assert Reading(s, o) == None && !CanRead(policy, s, c);
        WriterMoves(policy, s, c);
      }
    } else {
      assert LockOk(s, w);
      assert !s.calls[w].HoldsRegistry();
      OnlyOwnerReads(s, w);
      c := w;
    }
  }

  // ----- every call ends

  lemma {:induction false} Pigeonhole(xs: seq<PeerId>, n: nat)
    requires Distinct(xs) && forall i :: 0 <= i < |xs| ==> xs[i] < n
    ensures |xs| <= n
  {
    if xs != [] {
      assert xs[0] < n;
      if k :| 0 <= k < |xs| && xs[k] == n - 1 {
        var ys := xs[..k] + xs[k + 1..];
        forall i | 0 <= i < |ys| ensures ys[i] == xs[if i < k then i else i + 1] && ys[i] < n - 1 {}
        assert Distinct(ys);
        Pigeonhole(ys, n - 1);
      } else {
        Pigeonhole(xs, n - 1);
      }
    }
  }

  lemma VecIsShort(s: State)
    requires Inv(s)
    ensures |s.vec| <= |s.calls|
  {
    forall i | 0 <= i < |s.vec| ensures s.vec[i] < |s.calls| {
      assert s.vec[i] in s.vec;
    }
    Pigeonhole(s.vec, |s.calls|);
  }

  /** The steps a call still has to take at most, when n calls share the registry. */
  function StepsLeft(call: Call, listed: nat, n: nat): nat {
    match call
    case AddLock => 7
    case AddPush => 6
    case AddUnlock => 5
    case AddSleep => 4
    case AddWait => 3
    case AddStart => 2
    case AddStartUnlock => 1
    case BroadcastLock(_) => 3 * n + 2
    case BroadcastNext(_, i) => if i <= listed then 3 * (listed - i) + 1 else 1
    case BroadcastSend(_, i) => if i < listed then 3 * (listed - i) else 1
    case BroadcastSent(_, i) => if i < listed then 3 * (listed - i) - 1 else 1
    case CloseLock => 3 * n + 2
    case CloseNext(todo) => 3 * |todo| + 1
    case CloseSend(_, todo) => 3 * |todo| + 3
    case CloseSent(_, todo) => 3 * |todo| + 2
    case _ => 0
  }

  ghost function AllStepsLeft(s: State): (xs: seq<nat>)
    ensures |xs| == |s.calls|
  {
    seq(|s.calls|, c requires 0 <= c < |s.calls| => StepsLeft(s.calls[c], |s.vec|, |s.calls|))
  }

  ghost function Measure(s: State): nat { Sum(AllStepsLeft(s)) }

  lemma OwnStepPays(policy: Policy, s: State, c: nat)
    requires CallEnabled(policy, s, c) && CallOk(s, c) && |s.vec| <= |s.calls|
    ensures var t := NextCall(policy, s, c);
            |t.calls| == |s.calls|
            && StepsLeft(t.calls[c], |t.vec|, |t.calls|) < StepsLeft(s.calls[c], |s.vec|, |s.calls|)
  {
  }

  lemma OthersKeepSteps(policy: Policy, s: State, c: nat, d: nat)
    requires Inv(s) && CallEnabled(policy, s, c) && d < |s.calls| && d != c
    ensures var t := NextCall(policy, s, c);
            |t.calls| == |s.calls|
            && StepsLeft(t.calls[d], |t.vec|, |t.calls|) == StepsLeft(s.calls[d], |s.vec|, |s.calls|)
  {
    StepSizes(policy, s, c);
    if s.calls[c].HoldsRegistry() || s.calls[c].Start() {
      Alone(policy, s, c, d);
    } else {
      OutsideStep(policy, s, c);
    }
    hide NextCall, Inv;
  }

  /** Every step of a call lowers the measure; polling leaves it alone. */
  lemma StepLowersMeasure(policy: Policy, s: State, m: Move)
    requires Inv(s) && Enabled(policy, s, m)
    ensures Measure(Next(policy, s, m)) + (if m.CallStep? then 1 else 0) <= Measure(s)
  {
    var t := Next(policy, s, m);
    match m {
      case Poll(_) => assert AllStepsLeft(t) == AllStepsLeft(s);
      case CallStep(c) =>
        VecIsShort(s);
        assert CallOk(s, c);
        OwnStepPays(policy, s, c);
        hide Inv, NextCall, StepsLeft;
        forall d | 0 <= d < |s.calls| && d != c
          ensures AllStepsLeft(t)[d] == AllStepsLeft(s)[d]
        {
          OthersKeepSteps(policy, s, c, d);
        }
        SumDrops(AllStepsLeft(s), AllStepsLeft(t), c, 1);
    }
  }

  ghost function CallSteps(moves: seq<Move>): nat {
    if moves == [] then 0 else (if moves[0].CallStep? then 1 else 0) + CallSteps(moves[1..])
  }

  lemma {:induction false} RunLowersMeasure(policy: Policy, s: State, moves: seq<Move>)
    requires Inv(s) && ValidRun(policy, s, moves)
    ensures Measure(Run(policy, s, moves)) + CallSteps(moves) <= Measure(s)
    decreases |moves|
  {
    hide Inv, Measure, Next, Enabled;
    if moves != [] {
      StepLowersMeasure(policy, s, moves[0]);
      StepSafe(policy, s, moves[0]);
      RunLowersMeasure(policy, Next(policy, s, moves[0]), moves[1..]);
    }
  }

  /** However the n calls are scheduled, and whatever the polling threads do in between, they take at
      most n (3n + 7) steps together. */
  lemma CallStepsAreBounded(policy: Policy, s: State, moves: seq<Move>)
    requires Initial(s) && ValidRun(policy, s, moves)
    ensures CallSteps(moves) <= (3 * |s.calls| + 7) * |s.calls|
  {
    InitialInv(s);
    RunLowersMeasure(policy, s, moves);
    SumAtMost(AllStepsLeft(s), 3 * |s.calls| + 7);
  }

  ghost predicate AllDone(s: State) {
    forall c :: 0 <= c < |s.calls| ==> s.calls[c].Done()
  }

  /** So from every reachable state all calls can be brought to an end by call steps alone. */
  lemma {:induction false} EveryCallCanFinish(policy: Policy, s: State) returns (moves: seq<Move>)
    requires Inv(s)
    ensures ValidRun(policy, s, moves) && AllDone(Run(policy, s, moves))
    ensures CallSteps(moves) == |moves|
    decreases Measure(s)
  {
    moves := [];
    if c :| 0 <= c < |s.calls| && !s.calls[c].Done() {
      var d := DeadlockFree(policy, s, c);
      var m := CallStep(d);
      StepLowersMeasure(policy, s, m);
      StepSafe(policy, s, m);
      hide Inv, Measure, Next, Enabled, AllDone;
      var rest := EveryCallCanFinish(policy, Next(policy, s, m));
      RunCons(policy, s, m, rest);
      moves := [m] + rest;
      assert moves[1..] == rest;
    }
  }
}
