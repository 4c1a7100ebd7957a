/** When a call of the registry panics: exactly which programs can, exactly when a call that gets the
    registry can, and what a panic leaves behind. */
module RegistryPanic {
  import opened Common
  import opened RegistryMachine
  import opened RegistrySafety
  import opened RegistryLife
  import opened RegistryProgress

  ghost predicate SomePanic(s: State) { exists c :: 0 <= c < |s.calls| && s.calls[c].Panicked? }

  // ----- which programs can panic

  /** Nothing but broadcasts and closes of an empty registry. */
  ghost predicate OnlyUsers(s: State) {
    && !s.poisoned && s.vec == []
    && forall c :: 0 <= c < |s.calls| ==>
         match s.calls[c]
         case BroadcastLock(_) => true
         case BroadcastNext(_, i) => i == 0
         case BroadcastDone => true
         case CloseLock => true
         case CloseNext(todo) => todo == []
         case CloseDone => true
         case _ => false
  }

  predicate Adding(call: Call) { call.AddLock? || call.AddPush? || call.Pushed() }

  ghost predicate OnlyAdds(s: State) {
    !s.poisoned && forall c :: 0 <= c < |s.calls| ==> Adding(s.calls[c])
  }

  lemma {:induction false} RunOnlyUsers(policy: Policy, s: State, moves: seq<Move>)
    requires OnlyUsers(s) && ValidRun(policy, s, moves)
    ensures OnlyUsers(Run(policy, s, moves))
    decreases |moves|
  {
    if moves != [] {
      StepOnlyUsers(policy, s, moves[0]);
      hide OnlyUsers, Next, Enabled;
      RunOnlyUsers(policy, Next(policy, s, moves[0]), moves[1..]);
    }
  }

  lemma StepOnlyUsers(policy: Policy, s: State, m: Move)
    requires OnlyUsers(s) && Enabled(policy, s, m)
    ensures OnlyUsers(Next(policy, s, m))
  {
  }

  lemma {:induction false} RunOnlyAdds(policy: Policy, s: State, moves: seq<Move>)
    requires OnlyAdds(s) && ValidRun(policy, s, moves)
    ensures OnlyAdds(Run(policy, s, moves))
    decreases |moves|
  {
    if moves != [] {
      StepOnlyAdds(policy, s, moves[0]);
      hide OnlyAdds, Next, Enabled;
      RunOnlyAdds(policy, Next(policy, s, moves[0]), moves[1..]);
    }
  }

  lemma StepOnlyAdds(policy: Policy, s: State, m: Move)
    requires OnlyAdds(s) && Enabled(policy, s, m)
    ensures OnlyAdds(Next(policy, s, m))
  {
  }

  /** The schedule of the repository's `main`, for any number of calls: a pushes its peer and sleeps;
      b gets the registry, reads the peer, which has no channels yet, and unwraps None. */
  lemma PanicRun(policy: Policy, s: State, a: nat, b: nat) returns (moves: seq<Move>)
    requires Initial(s) && a < |s.calls| && b < |s.calls| && a != b
    requires s.calls[a].AddLock? && (s.calls[b].BroadcastLock? || s.calls[b].CloseLock?)
    ensures ValidRun(policy, s, moves)
    ensures var t := Run(policy, s, moves);
            && t.calls == s.calls[a := AddSleep][b := Panicked]
            && t.poisoned && t.owner == None && t.peers == s.peers
            && t.vec == if s.calls[b].CloseLock? then [] else [a]
  {
    var ma, mb := CallStep(a), CallStep(b);
    var s1 := Next(policy, s, ma);
    var s2 := Next(policy, s1, ma);
    var s3 := Next(policy, s2, ma);
    assert s3 == s.(vec := [a], calls := s.calls[a := AddSleep]);
    var later := UserPanics(policy, s3, a, b);
    RunCons(policy, s2, ma, later);
    RunCons(policy, s1, ma, [ma] + later);
    RunCons(policy, s, ma, [ma] + ([ma] + later));
    moves := [ma] + ([ma] + ([ma] + later));
    assert s3.calls[b := Panicked] == s.calls[a := AddSleep][b := Panicked];
  }

  lemma UserPanics(policy: Policy, s: State, a: nat, b: nat) returns (moves: seq<Move>)
    requires |s.peers| == |s.calls| && a < |s.calls| && b < |s.calls| && a != b
    requires s.owner == None && !s.poisoned && s.vec == [a]
    requires s.calls[a].AddSleep? && s.peers[a] == NewPeer()
    requires s.calls[b].BroadcastLock? || s.calls[b].CloseLock?
    ensures ValidRun(policy, s, moves)
    ensures Run(policy, s, moves)
            == s.(poisoned := true, vec := if s.calls[b].CloseLock? then [] else [a], calls := s.calls[b := Panicked])
  {
    var m := CallStep(b);
    var s1 := Next(policy, s, m);
    assert ReadTarget(s1, b) == Some(a);
    var s2 := Next(policy, s1, m);
    assert ReadTarget(s2, b) == Some(a) && s2.peers[a].readers == {b};
    var s3 := Next(policy, s2, m);
    assert s3.peers[a] == s.peers[a];
    assert s3.peers == s.peers;
    assert s3.calls == s.calls[b := Panicked];
    RunCons(policy, s2, m, []);
    RunCons(policy, s1, m, [m] + []);
    RunCons(policy, s, m, [m] + ([m] + []));
    moves := [m] + ([m] + ([m] + []));
  }

  /** Exactly which programs can panic: those with at least one add_peer and at least one broadcast or
      close_peers among their calls. */
  lemma CanPanicIff(policy: Policy, s: State)
    requires Initial(s)
    ensures (exists moves :: ValidRun(policy, s, moves) && SomePanic(Run(policy, s, moves)))
            <==> (exists a :: 0 <= a < |s.calls| && s.calls[a].AddLock?)
                 && (exists b :: 0 <= b < |s.calls| && !s.calls[b].AddLock?)
  {
    if a, b :| 0 <= a < |s.calls| && s.calls[a].AddLock? && 0 <= b < |s.calls| && !s.calls[b].AddLock? {
      var moves := PanicRun(policy, s, a, b);
      var t := Run(policy, s, moves);
      assert t.calls[b].Panicked?;
      assert SomePanic(t);
    } else {
      forall moves | ValidRun(policy, s, moves) ensures !SomePanic(Run(policy, s, moves)) {
        NoMixNoPanic(policy, s, moves);
      }
    }
  }

  lemma NoMixNoPanic(policy: Policy, s: State, moves: seq<Move>)
    requires Initial(s) && ValidRun(policy, s, moves)
    requires (forall c :: 0 <= c < |s.calls| ==> s.calls[c].AddLock?)
             || (forall c :: 0 <= c < |s.calls| ==> !s.calls[c].AddLock?)
    ensures !SomePanic(Run(policy, s, moves))
  {
    if forall c :: 0 <= c < |s.calls| ==> s.calls[c].AddLock? {
      RunOnlyAdds(policy, s, moves);
    } else {
      RunOnlyUsers(policy, s, moves);
    }
  }

  // ----- when a call that gets the registry can panic

  /** The peer of this add_peer is listed, not started, and its lock would grant a read. */
  predicate Exposed(policy: Policy, call: Call) {
    call.AddSleep? || (policy == ReadersFirst && call.AddWait?)
  }

  ghost predicate NoneExposed(policy: Policy, s: State, xs: seq<PeerId>) {
    forall p :: p in xs ==> p < |s.calls| && !Exposed(policy, s.calls[p])
  }

  /** Call b is in its loop, or through it, and will find every peer started. */
  ghost predicate Covered(policy: Policy, s: State, b: nat) {
    && b < |s.calls|
    && match s.calls[b]
       case BroadcastNext(_, _) => NoneExposed(policy, s, s.vec)
       case BroadcastSend(_, i) => NoneExposed(policy, s, s.vec) && i < |s.vec| && IsStarted(s, s.vec[i])
       case BroadcastSent(_, _) => NoneExposed(policy, s, s.vec)
       case CloseNext(todo) => NoneExposed(policy, s, todo)
       case CloseSend(p, todo) => NoneExposed(policy, s, todo) && IsStarted(s, p)
       case CloseSent(_, todo) => NoneExposed(policy, s, todo)
       case BroadcastDone => true
       case CloseDone => true
       case _ => false
  }

  predicate IsStarted(s: State, p: PeerId) { p < |s.peers| && s.peers[p].Started() }

  /** A peer whose lock grants a read has been started, unless it is exposed. */
  lemma ReadableIsStarted(policy: Policy, s: State, p: PeerId)
    requires Inv(s) && p < |s.peers| && s.calls[p].Pushed() && !s.calls[p].AddUnlock?
    requires !Exposed(policy, s.calls[p]) && CanRead(policy, s, p)
    ensures IsStarted(s, p)
  {
    assert LockOk(s, p) && PeerOk(s.peers[p], s.calls[p]);
  }

  lemma OwnCovered(policy: Policy, s: State, b: nat)
    requires Inv(s) && CallEnabled(policy, s, b) && Covered(policy, s, b)
    ensures Covered(policy, NextCall(policy, s, b), b)
  {
    assert CallOk(s, b);
    TargetExists(s, b);
    if (s.calls[b].BroadcastNext? || s.calls[b].CloseNext?) && ReadTarget(s, b).Some? {
      var p := ReadTarget(s, b).value;
      assert !s.calls[p].AddUnlock? && !Exposed(policy, s.calls[p]);
      ReadableIsStarted(policy, s, p);
    }
    StepSizes(policy, s, b);
    hide Inv, Exposed;
    CoveredNext(policy, s, b);
  }

  lemma CoveredNext(policy: Policy, s: State, b: nat)
    requires CallEnabled(policy, s, b) && CallOk(s, b) && Covered(policy, s, b)
    requires (s.calls[b].BroadcastNext? || s.calls[b].CloseNext?) && ReadTarget(s, b).Some?
             ==> IsStarted(s, ReadTarget(s, b).value)
    ensures Covered(policy, NextCall(policy, s, b), b)
  {
    var t := NextCall(policy, s, b);
    StepSizes(policy, s, b);
    NoneExposedAfter(policy, s, t, b, s.vec);
    hide Exposed;
    match s.calls[b] {
      case CloseNext(todo) =>
        NoneExposedAfter(policy, s, t, b, todo);
        NoneExposedTail(policy, t, todo);
      case CloseSend(_, todo) => NoneExposedAfter(policy, s, t, b, todo);
      case CloseSent(_, todo) => NoneExposedAfter(policy, s, t, b, todo);
      case _ =>
    }
  }

  lemma NoneExposedTail(policy: Policy, s: State, xs: seq<PeerId>)
    requires NoneExposed(policy, s, xs)
    ensures xs != [] ==> NoneExposed(policy, s, xs[1..])
  {
    if xs != [] {
      forall p | p in xs[1..] ensures p in xs {
        var i :| 0 <= i < |xs[1..]| && xs[1..][i] == p;
        assert xs[i + 1] == p;
      }
    }
  }

  lemma NoneExposedAfter(policy: Policy, s: State, t: State, b: nat, xs: seq<PeerId>)
    requires b < |s.calls| == |t.calls| && !Exposed(policy, t.calls[b])
    requires forall d :: 0 <= d < |s.calls| && d != b ==> t.calls[d] == s.calls[d]
    ensures NoneExposed(policy, s, xs) ==> NoneExposed(policy, t, xs)
  {
  }

  lemma OtherCovered(policy: Policy, s: State, m: Move, b: nat)
    requires Inv(s) && Enabled(policy, s, m) && Covered(policy, s, b) && m != CallStep(b)
    ensures Covered(policy, Next(policy, s, m), b)
  {
    var t := Next(policy, s, m);
    match m {
      case Poll(_) => assert forall p :: IsStarted(s, p) ==> IsStarted(t, p);
      case CallStep(d) =>
        StepSizes(policy, s, d);
        if s.calls[b].HoldsRegistry() {
          if s.calls[d].HoldsRegistry() || s.calls[d].Start() {
            Alone(policy, s, d, b);
            assert false;
          }
          OutsideCovered(policy, s, d);
        }
    }
    hide Inv, Exposed, IsStarted, Next;
  }

  /** Outside the critical section nobody becomes exposed and nobody stops being started. */
  lemma OutsideCovered(policy: Policy, s: State, d: nat)
    requires CallEnabled(policy, s, d) && !s.calls[d].HoldsRegistry() && !s.calls[d].Start()
    ensures var t := NextCall(policy, s, d);
            && t.vec == s.vec
            && (forall p: PeerId :: p < |s.calls| && !Exposed(policy, s.calls[p]) ==>
                  p < |t.calls| && !Exposed(policy, t.calls[p]))
            && (forall p :: IsStarted(s, p) ==> IsStarted(t, p))
  {
  }

  lemma {:induction false} RunCovered(policy: Policy, s: State, moves: seq<Move>, b: nat)
    requires Inv(s) && ValidRun(policy, s, moves) && Covered(policy, s, b)
    ensures Covered(policy, Run(policy, s, moves), b)
    decreases |moves|
  {
    hide Inv, Covered, Next, NextCall, CallEnabled;
    if moves != [] {
      if moves[0] == CallStep(b) {
        OwnCovered(policy, s, b);
        NextIsNextCall(policy, s, b);
      } else {
        OtherCovered(policy, s, moves[0], b);
      }
      StepSafe(policy, s, moves[0]);
      RunCovered(policy, Next(policy, s, moves[0]), moves[1..], b);
    }
  }

  /** Call b is at the head of its loop, with the peers of `all` from j on still to do. */
  predicate AtHead(s: State, b: nat, all: seq<PeerId>, j: nat) {
    && b < |s.calls| && j <= |all|
    && ((s.calls[b].BroadcastNext? && s.calls[b].i == j && s.vec == all) || s.calls[b] == CloseNext(all[j..]))
  }

  /** An add_peer that has the lock of its peer, or will get it next, runs to its end. */
  lemma {:induction false} FinishAdd(policy: Policy, s: State, p: PeerId) returns (moves: seq<Move>)
    requires Inv(s) && p < |s.calls| && s.peers[p].readers == {}
    requires s.calls[p].AddWait? || s.calls[p].AddStart? || s.calls[p].AddStartUnlock? || s.calls[p].Added?
    ensures ValidRun(policy, s, moves) && Inv(Run(policy, s, moves))
    ensures var t := Run(policy, s, moves); t.vec == s.vec && t.calls == s.calls[p := Added]
    decreases StepsLeft(s.calls[p], 0, 0)
  {
    if s.calls[p].Added? {
      moves := [];
      assert s.calls[p := Added] == s.calls;
    } else {
      assert LockOk(s, p);
      var m := CallStep(p);
      assert Enabled(policy, s, m);
      var s1 := Next(policy, s, m);
      assert s1.calls[p := Added] == s.calls[p := Added];
      StepSafe(policy, s, m);
      hide Inv;
      var rest := FinishAdd(policy, s1, p);
      hide Next;
      RunCons(policy, s, m, rest);
      moves := [m] + rest;
    }
  }

  /** At the head of its loop a call looks at a peer that exists and that nobody reads. */
  lemma HeadFacts(s: State, b: nat, all: seq<PeerId>, j: nat)
    requires Inv(s) && AtHead(s, b, all, j) && j < |all|
    ensures var p := all[j];
            && ReadTarget(s, b) == Some(p) && Reading(s, b) == None
            && p < |s.peers| == |s.calls| && p != b && s.calls[p].Pushed() && !s.calls[p].AddUnlock?
                && s.peers[p].readers == {}
  {
    TargetExists(s, b);
    OnlyOwnerReads(s, all[j]);
  }

  /** The rest of the loop after a peer has been dealt with. */
  lemma Rest<T>(xs: seq<T>, j: nat)
    requires j < |xs|
    ensures xs[j..] != [] && xs[j..][0] == xs[j] && xs[j..][1..] == xs[j + 1..]
  {
  }

  lemma ReadStep(policy: Policy, s: State, b: nat, all: seq<PeerId>, j: nat)
    requires Inv(s) && AtHead(s, b, all, j) && j < |all| && all[j] < |s.peers| && CanRead(policy, s, all[j])
    ensures CallEnabled(policy, s, b)
    ensures var t, p := NextCall(policy, s, b), all[j];
            && |t.peers| == |s.peers| && t.vec == s.vec && t.calls == s.calls[b := t.calls[b]]
            && t.peers[p].Started() == s.peers[p].Started()
            && ((s.vec == all && s.calls[b].BroadcastNext? && t.calls[b] == BroadcastSend(s.calls[b].val, j))
                || t.calls[b] == CloseSend(p, all[j + 1..]))
  {
    HeadFacts(s, b, all, j);
    Rest(all, j);
    hide Inv;
  }

  /** Call b passes a peer that has been started. */
  lemma PassStarted(policy: Policy, s: State, b: nat, all: seq<PeerId>, j: nat) returns (moves: seq<Move>)
    requires Inv(s) && AtHead(s, b, all, j) && j < |all| && all[j] < |s.peers|
    requires CanRead(policy, s, all[j]) && s.peers[all[j]].Started()
    ensures ValidRun(policy, s, moves) && Inv(Run(policy, s, moves))
    ensures var t := Run(policy, s, moves); AtHead(t, b, all, j + 1) && t.calls == s.calls[b := t.calls[b]]
  {
    var m := CallStep(b);
    ReadStep(policy, s, b, all, j);
    StepSafe(policy, s, m);
    var s1 := Next(policy, s, m);
    moves := SendAndRelease(policy, s1, b, all, j);
    hide Inv, Next, AtHead;
    RunCons(policy, s, m, moves);
    moves := [m] + moves;
  }

  /** Call b sends to the peer it has in hand, which has been started, and lets go of it. */
  lemma SendAndRelease(policy: Policy, s: State, b: nat, all: seq<PeerId>, j: nat) returns (moves: seq<Move>)
    requires Inv(s) && b < |s.calls| && j < |all| && all[j] < |s.peers| && s.peers[all[j]].Started()
    requires (s.vec == all && s.calls[b].BroadcastSend? && s.calls[b].i == j)
             || s.calls[b] == CloseSend(all[j], all[j + 1..])
    ensures ValidRun(policy, s, moves) && Inv(Run(policy, s, moves))
    ensures var t := Run(policy, s, moves); AtHead(t, b, all, j + 1) && t.calls == s.calls[b := t.calls[b]]
  {
    var m := CallStep(b);
    StepSafe(policy, s, m);
    var s1 := Next(policy, s, m);
    StepSafe(policy, s1, m);
    hide Inv, TrySend, SendClose;
    var s2 := Next(policy, s1, m);
    assert AtHead(s2, b, all, j + 1) && s2.calls == s.calls[b := s2.calls[b]];
    hide Next, AtHead, Enabled;
    RunCons(policy, s1, m, []);
    RunCons(policy, s, m, [m] + []);
    moves := [m] + ([m] + []);
  }

  /** Call b passes a peer that is not exposed: if it is not started yet, its add_peer finishes first. */
  lemma PassPeer(policy: Policy, s: State, b: nat, all: seq<PeerId>, j: nat) returns (moves: seq<Move>)
    requires Inv(s) && AtHead(s, b, all, j) && j < |all|
    requires all[j] < |s.calls| && !Exposed(policy, s.calls[all[j]])
    ensures ValidRun(policy, s, moves) && Inv(Run(policy, s, moves))
    ensures var t := Run(policy, s, moves);
            AtHead(t, b, all, j + 1) && t.calls == s.calls[all[j] := Added][b := t.calls[b]]
  {
    var p := all[j];
    HeadFacts(s, b, all, j);
    moves := FinishAdd(policy, s, p);
    var s1 := Run(policy, s, moves);
    AddedIsReadable(policy, s1, p);
    hide Inv, Run, ValidRun;
    var more := PassStarted(policy, s1, b, all, j);
    RunAppend(policy, s, moves, more);
    moves := moves + more;
  }

  lemma AddedIsReadable(policy: Policy, s: State, p: PeerId)
    requires Inv(s) && p < |s.calls| && s.calls[p].Added?
    ensures |s.peers| == |s.calls| && CanRead(policy, s, p) && s.peers[p].Started()
  {
    assert LockOk(s, p) && PeerOk(s.peers[p], s.calls[p]);
  }

  /** At an exposed peer call b panics. */
  lemma MeetExposed(policy: Policy, s: State, b: nat, all: seq<PeerId>, j: nat) returns (moves: seq<Move>)
    requires Inv(s) && AtHead(s, b, all, j) && j < |all|
    requires all[j] < |s.calls| && Exposed(policy, s.calls[all[j]])
    ensures ValidRun(policy, s, moves) && PanickedIn(Run(policy, s, moves), b)
  {
    var p, m := all[j], CallStep(b);
    HeadFacts(s, b, all, j);
    assert LockOk(s, p) && PeerOk(s.peers[p], s.calls[p]);
    assert !s.peers[p].Started() && CanRead(policy, s, p);
    ReadStep(policy, s, b, all, j);
    hide Inv;
    var s1 := Next(policy, s, m);
    assert ReadTarget(s1, b) == Some(p);
    assert PanickedIn(Next(policy, s1, m), b);
    hide Next, AtHead;
    RunCons(policy, s1, m, []);
    RunCons(policy, s, m, [m] + []);
    moves := [m] + ([m] + []);
  }

  predicate PanickedIn(s: State, b: nat) { b < |s.calls| && s.calls[b].Panicked? }

  lemma {:induction false} ReachExposed(policy: Policy, s: State, b: nat, all: seq<PeerId>, j: nat, k: nat)
      returns (moves: seq<Move>)
    requires Inv(s) && AtHead(s, b, all, j) && j <= k < |all| && Distinct(all) && b !in all
    requires forall i :: j <= i < |all| ==> all[i] < |s.calls|
    requires Exposed(policy, s.calls[all[k]])
    ensures ValidRun(policy, s, moves) && PanickedIn(Run(policy, s, moves), b)
    decreases k - j
  {
    if Exposed(policy, s.calls[all[j]]) {
      moves := MeetExposed(policy, s, b, all, j);
    } else {
      moves := PassPeer(policy, s, b, all, j);
      var t := Run(policy, s, moves);
      assert all[k] != all[j] && all[k] in all;
      assert t.calls[all[k]] == s.calls[all[k]];
      hide Inv, Run, ValidRun, AtHead, Exposed;
      var more := ReachExposed(policy, t, b, all, j + 1, k);
      RunAppend(policy, s, moves, more);
      moves := moves + more;
    }
  }

  /** Exactly when a broadcast or close that is about to get the registry can come to panic: if and
      only if some listed peer is not started and its add_peer neither holds the lock of the peer nor
      keeps readers out by waiting for it. */
  lemma AcquireCanPanicIff(policy: Policy, s: State, b: nat)
    requires Inv(s) && b < |s.calls| && (s.calls[b].BroadcastLock? || s.calls[b].CloseLock?)
    requires s.owner == None && !s.poisoned
    ensures CallEnabled(policy, s, b)
    ensures (exists moves ::
               && ValidRun(policy, NextCall(policy, s, b), moves)
               && PanickedIn(Run(policy, NextCall(policy, s, b), moves), b))
            <==> (exists p :: p in s.vec && p < |s.calls| && Exposed(policy, s.calls[p]))
  {
    assert CallEnabled(policy, s, b);
    hide Inv, NextCall, Exposed, CallEnabled;
    if p :| p in s.vec && p < |s.calls| && Exposed(policy, s.calls[p]) {
      var moves := ExposedPanics(policy, s, b, p);
    } else {
      forall moves | ValidRun(policy, NextCall(policy, s, b), moves)
        ensures !PanickedIn(Run(policy, NextCall(policy, s, b), moves), b)
      {
        NoneExposedNoPanic(policy, s, b, moves);
      }
    }
  }

  lemma ExposedPanics(policy: Policy, s: State, b: nat, p: PeerId) returns (moves: seq<Move>)
    requires Inv(s) && CallEnabled(policy, s, b) && (s.calls[b].BroadcastLock? || s.calls[b].CloseLock?) && !s.poisoned
    requires p in s.vec && p < |s.calls| && Exposed(policy, s.calls[p])
    ensures ValidRun(policy, NextCall(policy, s, b), moves) && PanickedIn(Run(policy, NextCall(policy, s, b), moves), b)
  {
    var t := NextCall(policy, s, b);
    StepSafe(policy, s, CallStep(b));
    var k: nat :| k < |s.vec| && s.vec[k] == p;
    AcquireHead(policy, s, b);
    assert b !in s.vec && Distinct(s.vec);
    forall i | 0 <= i < |s.vec| ensures s.vec[i] < |t.calls| {
      assert s.vec[i] in s.vec;
    }
    hide Inv, NextCall, Exposed, CallEnabled;
    moves := ReachExposed(policy, t, b, s.vec, 0, k);
  }

  lemma NoneExposedNoPanic(policy: Policy, s: State, b: nat, moves: seq<Move>)
    requires Inv(s) && CallEnabled(policy, s, b) && (s.calls[b].BroadcastLock? || s.calls[b].CloseLock?) && !s.poisoned
    requires forall p :: p in s.vec && p < |s.calls| ==> !Exposed(policy, s.calls[p])
    requires ValidRun(policy, NextCall(policy, s, b), moves)
    ensures !PanickedIn(Run(policy, NextCall(policy, s, b), moves), b)
  {
    var t := NextCall(policy, s, b);
    StepSafe(policy, s, CallStep(b));
    assert Covered(policy, t, b);
    hide Inv, NextCall, Covered, CallEnabled;
    RunCovered(policy, t, moves, b);
    CoveredIsFine(policy, Run(policy, t, moves), b);
  }

  lemma CoveredIsFine(policy: Policy, s: State, b: nat)
    requires Covered(policy, s, b)
    ensures !PanickedIn(s, b)
  {
  }

  lemma AcquireHead(policy: Policy, s: State, b: nat)
    requires CallEnabled(policy, s, b) && (s.calls[b].BroadcastLock? || s.calls[b].CloseLock?) && !s.poisoned
    ensures AtHead(NextCall(policy, s, b), b, s.vec, 0)
    ensures NextCall(policy, s, b).calls == s.calls[b := NextCall(policy, s, b).calls[b]]
  {
    assert s.vec[0..] == s.vec;
  }

  // ----- what a panic leaves behind

  /** After a panic nobody gets the registry any more: a call that has not got it yet panics too. */
  lemma {:induction false} PoisonedForGood(policy: Policy, s: State, moves: seq<Move>, c: nat)
    requires ValidRun(policy, s, moves) && s.poisoned && c < |s.calls| && (s.calls[c].Start() || s.calls[c].Panicked?)
    ensures var t := Run(policy, s, moves);
            t.poisoned && c < |t.calls| && (t.calls[c].Start() || t.calls[c].Panicked?)
    decreases |moves|
  {
    if moves != [] {
      PoisonedStep(policy, s, moves[0], c);
      hide Next, Enabled;
      PoisonedForGood(policy, Next(policy, s, moves[0]), moves[1..], c);
    }
  }

  lemma PoisonedStep(policy: Policy, s: State, m: Move, c: nat)
    requires Enabled(policy, s, m) && s.poisoned && c < |s.calls| && (s.calls[c].Start() || s.calls[c].Panicked?)
    ensures var t := Next(policy, s, m);
            t.poisoned && c < |t.calls| && (t.calls[c].Start() || t.calls[c].Panicked?)
  {
  }

  /** Peer p has left the list and no close is going to reach it. */
  ghost predicate Abandoned(s: State, p: PeerId) {
    && Gone(s, p) && s.peers[p].closes == 0
    && forall c :: 0 <= c < |s.calls| ==> !ToClose(s.calls[c], p)
  }

  predicate ToClose(call: Call, p: PeerId) {
    match call
    case CloseNext(todo) => p in todo
    case CloseSend(q, todo) => q == p || p in todo
    case CloseSent(_, todo) => p in todo
    case _ => false
  }

  lemma StepAbandoned(policy: Policy, s: State, m: Move, p: PeerId)
    requires Inv(s) && Enabled(policy, s, m) && Abandoned(s, p)
    ensures Abandoned(Next(policy, s, m), p)
  {
    StepGone(policy, s, m, p);
    match m {
      case Poll(q) => PollOk(s.peers[q], s.calls[q]);
      case CallStep(c) =>
        ClosesKept(policy, s, c);
        StepSizes(policy, s, c);
        NotToClose(policy, s, c, p);
        hide Inv, NextCall, ToClose;
        assert !ToClose(s.calls[c], p);
        SendIsToClose(s.calls[c], p);
    }
  }

  lemma SendIsToClose(call: Call, p: PeerId)
    requires !ToClose(call, p)
    ensures call.CloseSend? ==> call.peer != p
  {
  }

  lemma NotToClose(policy: Policy, s: State, c: nat, p: PeerId)
    requires CallEnabled(policy, s, c) && p !in s.vec && !ToClose(s.calls[c], p)
    ensures c < |NextCall(policy, s, c).calls| && !ToClose(NextCall(policy, s, c).calls[c], p)
  {
  }

  /** The polling thread of an abandoned peer never ends. */
  lemma {:induction false} AbandonedForever(policy: Policy, s: State, moves: seq<Move>, p: PeerId)
    requires Inv(s) && ValidRun(policy, s, moves) && Abandoned(s, p)
    ensures Abandoned(Run(policy, s, moves), p) && !Run(policy, s, moves).peers[p].poller.Ended?
    decreases |moves|
  {
    if moves == [] {
      assert PeerOk(s.peers[p], s.calls[p]);
    } else {
      hide Inv, Abandoned, Next, Enabled;
      StepAbandoned(policy, s, moves[0], p);
      StepSafe(policy, s, moves[0]);
      AbandonedForever(policy, Next(policy, s, moves[0]), moves[1..], p);
    }
  }

  /** The repository's `main`: one add_peer and one close_peers.  In its schedule the close panics, the
      registry stays poisoned, and the peer, which is started afterwards, is never closed. */
  lemma MainPanics(policy: Policy, s: State) returns (moves: seq<Move>)
    requires Initial(s) && s.calls == [AddLock, CloseLock]
    ensures ValidRun(policy, s, moves)
    ensures var t := Run(policy, s, moves);
            t.calls == [AddSleep, Panicked] && t.poisoned && t.vec == [] && Inv(t) && Abandoned(t, 0)
  {
    moves := PanicRun(policy, s, 0, 1);
    InitialInv(s);
    RunSafe(policy, s, moves);
    var t := Run(policy, s, moves);
    assert t.calls == [AddSleep, Panicked];
    assert s.peers[0] == NewPeer();
  }
}
