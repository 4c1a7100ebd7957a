/** What holds in every reachable state of the registry: who owns which lock, which peers are listed,
    and what the channels of a peer contain. */
module RegistrySafety {
  import opened Common
  import opened RegistryMachine

  predicate Distinct(xs: seq<PeerId>) { forall i, j :: 0 <= i < j < |xs| ==> xs[i] != xs[j] }

  /** The registry is owned by exactly the call that is in its critical section. */
  ghost predicate Owned(s: State) {
    && (s.owner.Some? ==> s.owner.value < |s.calls|)
    && forall c :: 0 <= c < |s.calls| ==> (s.calls[c].HoldsRegistry() <==> s.owner == Some(c))
  }

  /** Different peers that have been pushed and not been told to close. */
  ghost predicate Open(s: State, xs: seq<PeerId>)
    requires |s.peers| == |s.calls|
  {
    Distinct(xs) && forall p :: p in xs ==> p < |s.calls| && s.calls[p].Pushed() && s.peers[p].closes == 0
  }

  /** What a call in its critical section may assume. */
  ghost predicate CallOk(s: State, c: nat)
    requires c < |s.calls| == |s.peers|
  {
    match s.calls[c]
    case BroadcastNext(_, i) => i <= |s.vec|
    case BroadcastSend(_, i) => i < |s.vec|
    case BroadcastSent(_, i) => i < |s.vec|
    case CloseNext(todo) => s.vec == [] && Open(s, todo)
    case CloseSend(p, todo) => s.vec == [] && Open(s, [p] + todo)
    case CloseSent(p, todo) => s.vec == [] && Open(s, todo) && p !in todo && p < |s.calls| && s.calls[p].Pushed()
    case _ => true
  }

  ghost predicate ListsOk(s: State)
    requires |s.peers| == |s.calls|
  {
    Open(s, s.vec) && forall c :: 0 <= c < |s.calls| ==> CallOk(s, c)
  }

  /** The peer that call c holds for reading. */
  function Reading(s: State, c: nat): Option<PeerId>
    requires c < |s.calls|
  {
    if s.calls[c].BroadcastNext? || s.calls[c].CloseNext? then None else ReadTarget(s, c)
  }

  /** The lock of peer p is held by exactly the calls that are inside. */
  ghost predicate LockOk(s: State, p: PeerId)
    requires p < |s.peers| == |s.calls|
  {
    && s.peers[p].writer == (if s.calls[p].HoldsPeerForWriting() then Some(p) else None)
    && forall c: nat :: c in s.peers[p].readers <==> c < |s.calls| && Reading(s, c) == Some(p)
  }

  ghost predicate LocksOk(s: State)
    requires |s.peers| == |s.calls|
  {
    forall p :: 0 <= p < |s.peers| ==> LockOk(s, p)
  }

  /** The life of one peer: it lives from its start; what it received and what is queued is what was
      accepted, in order; it is told to close at most once, ends exactly after that, and receives at
      most one more value in between. */
  predicate PeerOk(peer: Peer, maker: Call) {
    && (peer.Started() <==> maker.HasStarted())
    && peer.accepted == peer.received + peer.queue && |peer.queue| <= CAPACITY
    && peer.pending <= peer.closes <= 1 && peer.late <= peer.closes
    && (!peer.Started() ==> peer.accepted == [] && peer.closes == 0)
    && (peer.poller.Ended? <==> peer.closes == 1 && peer.pending == 0)
    && (peer.late == 1 ==> peer.poller.AtClose? || peer.poller.Ended?)
  }

  ghost predicate PeersOk(s: State)
    requires |s.peers| == |s.calls|
  {
    && (forall p :: 0 <= p < |s.peers| ==> PeerOk(s.peers[p], s.calls[p]))
    && (forall e :: e in s.errors ==> e == Full)
  }

  ghost predicate Inv(s: State) {
    && |s.peers| == |s.calls|
    && Owned(s)
    && ListsOk(s)
    && LocksOk(s)
    && PeersOk(s)
  }

  lemma InitialInv(s: State)
    requires Initial(s)
    ensures Inv(s)
  {
  }

  // ----- the operations on a peer

  /** try_send to an open peer never finds it disconnected, and fails exactly when ten values wait. */
  lemma TrySendOk(peer: Peer, maker: Call, v: Val)
    requires PeerOk(peer, maker) && peer.Started() && peer.closes == 0
    ensures PeerOk(TrySend(peer, v).0, maker)
    ensures TrySend(peer, v).1 == if |peer.queue| == CAPACITY then Some(Full) else None
    ensures TrySend(peer, v).0.accepted == peer.accepted + (if |peer.queue| == CAPACITY then [] else [v])
  {
  }

  /** try_send of one value after another, with nobody polling: the peer, and what each returned. */
  function SendEach(peer: Peer, vs: seq<Val>): (Peer, seq<Option<SendError>>) {
    if vs == [] then (peer, [])
    else
      var n := |vs| - 1;
      var (p, es) := SendEach(peer, vs[..n]);
      var (p', e) := TrySend(p, vs[n]);
      (p', es + [e])
  }

  /** A peer that nobody polls accepts values until ten are waiting, in order, and refuses all others as
      full. */
  lemma {:induction false} TenWait(peer: Peer, vs: seq<Val>)
    requires !peer.poller.Ended? && |peer.queue| <= 10
    ensures var (p, es) := SendEach(peer, vs);
            var room := 10 - |peer.queue|;
            && |es| == |vs| && !p.poller.Ended?
            && (forall k :: 0 <= k < |vs| ==> es[k] == if k < room then None else Some(Full))
            && p.queue == peer.queue + (if |vs| <= room then vs else vs[..room])
  {
    if vs != [] {
      var n := |vs| - 1;
      TenWait(peer, vs[..n]);
      assert vs == vs[..n] + [vs[n]];
    }
  }

  /** So an empty one accepts ten and refuses the eleventh. */
  lemma EleventhIsRefused(peer: Peer, vs: seq<Val>)
    requires !peer.poller.Ended? && peer.queue == [] && |vs| == 11
    ensures var (p, es) := SendEach(peer, vs);
            && |es| == 11 && (forall k :: 0 <= k < 10 ==> es[k] == None) && es[10] == Some(Full)
            && p.queue == vs[..10]
  {
    TenWait(peer, vs);
  }

  lemma SendCloseOk(peer: Peer, maker: Call)
    requires PeerOk(peer, maker) && peer.Started() && peer.closes == 0
    ensures PeerOk(SendClose(peer).0, maker) && SendClose(peer).1 == None && SendClose(peer).0.closes == 1
  {
  }

  lemma PollOk(peer: Peer, maker: Call)
    requires PeerOk(peer, maker) && (peer.poller.AtRecv? || peer.poller.AtClose?)
    ensures PeerOk(PollPeer(peer), maker)
    ensures PollPeer(peer).closes == peer.closes
    ensures PollPeer(peer).readers == peer.readers && PollPeer(peer).writer == peer.writer
  {
    if peer.poller.AtRecv? && peer.queue != [] {
      assert peer.queue == [peer.queue[0]] + peer.queue[1..];
      assert peer.received + peer.queue == peer.received + [peer.queue[0]] + peer.queue[1..];
    }
  }

  // ----- the steps

  /** Call c takes a step in its critical section, or enters it; nobody else is in it. */
  lemma Alone(policy: Policy, s: State, c: nat, d: nat)
    requires Owned(s) && CallEnabled(policy, s, c) && d < |s.calls| && d != c
    requires s.calls[c].HoldsRegistry() || s.calls[c].Start()
    ensures !s.calls[d].HoldsRegistry()
  {
  }

  lemma StepSizes(policy: Policy, s: State, c: nat)
    requires CallEnabled(policy, s, c)
    ensures var t := NextCall(policy, s, c);
            && |t.peers| == |t.calls| == |s.calls|
            && (forall d :: 0 <= d < |s.calls| && d != c ==> t.calls[d] == s.calls[d])
            && (s.calls[c].Pushed() ==> t.calls[c].Pushed())
            && (!s.calls[c].Pushed() && t.calls[c].Pushed() ==> s.calls[c].AddPush?)
  {
  }

  lemma StepOwned(policy: Policy, s: State, c: nat)
    requires Owned(s) && CallEnabled(policy, s, c)
    ensures Owned(NextCall(policy, s, c))
  {
    StepSizes(policy, s, c);
  }

  /** A step outside the critical section leaves everything there alone. */
  lemma OutsideStep(policy: Policy, s: State, c: nat)
    requires CallEnabled(policy, s, c) && !s.calls[c].HoldsRegistry() && !s.calls[c].Start()
    ensures var t := NextCall(policy, s, c);
            && t.vec == s.vec && s.calls[c].Pushed() && t.errors == s.errors && t.poisoned == s.poisoned
            && |t.peers| == |s.peers| && c < |t.calls| && !t.calls[c].HoldsRegistry()
            && forall p :: 0 <= p < |s.peers| ==>
                 t.peers[p].closes == s.peers[p].closes && t.peers[p].readers == s.peers[p].readers
                 && t.peers[p].accepted == s.peers[p].accepted && t.peers[p].queue == s.peers[p].queue
  {
  }

  lemma OutsideLists(policy: Policy, s: State, c: nat)
    requires Inv(s) && CallEnabled(policy, s, c) && !s.calls[c].HoldsRegistry() && !s.calls[c].Start()
    ensures |NextCall(policy, s, c).peers| == |NextCall(policy, s, c).calls|
    ensures ListsOk(NextCall(policy, s, c))
  {
    hide NextCall, CallEnabled, Owned, LocksOk, PeersOk, Open;
    var t := NextCall(policy, s, c);
    OutsideStep(policy, s, c);
    StepSizes(policy, s, c);
    OpenOutside(s, t, c, s.vec);
    forall d | 0 <= d < |t.calls| ensures CallOk(t, d) {
      assert CallOk(s, d);
      match s.calls[d] {
        case CloseNext(todo) => OpenOutside(s, t, c, todo);
        case CloseSend(p, todo) => OpenOutside(s, t, c, [p] + todo);
        case CloseSent(p, todo) => OpenOutside(s, t, c, todo);
        case _ =>
      }
    }
  }

  lemma OpenOutside(s: State, t: State, c: nat, xs: seq<PeerId>)
    requires |s.peers| == |s.calls| == |t.peers| == |t.calls| && c < |s.calls| && Open(s, xs)
    requires forall d :: 0 <= d < |s.calls| && d != c ==> t.calls[d] == s.calls[d]
    requires s.calls[c].Pushed() ==> t.calls[c].Pushed()
    requires forall p :: 0 <= p < |s.peers| ==> t.peers[p].closes == s.peers[p].closes
    ensures Open(t, xs)
  {
  }

  lemma EnterLists(policy: Policy, s: State, c: nat)
    requires Inv(s) && CallEnabled(policy, s, c) && s.calls[c].Start()
    ensures |NextCall(policy, s, c).peers| == |NextCall(policy, s, c).calls|
    ensures ListsOk(NextCall(policy, s, c))
  {
    var t := NextCall(policy, s, c);
    OpenOutside(s, t, c, s.vec);
    forall d | 0 <= d < |t.calls| ensures CallOk(t, d) {
      if d != c {
        Alone(policy, s, c, d);
      }
    }
  }

  lemma InsideLists(policy: Policy, s: State, c: nat)
    requires Inv(s) && CallEnabled(policy, s, c) && s.calls[c].HoldsRegistry()
    ensures |NextCall(policy, s, c).peers| == |NextCall(policy, s, c).calls|
    ensures ListsOk(NextCall(policy, s, c))
  {
    var t := NextCall(policy, s, c);
    assert CallOk(s, c);
    InsideCall(policy, s, c);
    StepSizes(policy, s, c);
    hide NextCall, LocksOk, PeersOk, Open;
    forall d | 0 <= d < |t.calls| ensures CallOk(t, d) {
      if d != c {
        Alone(policy, s, c, d);
      }
    }
  }

  lemma InsideCall(policy: Policy, s: State, c: nat)
    requires Inv(s) && CallEnabled(policy, s, c) && s.calls[c].HoldsRegistry()
    ensures var t := NextCall(policy, s, c);
            |t.peers| == |t.calls| == |s.calls| && Open(t, t.vec) && CallOk(t, c)
  {
    assert CallOk(s, c);
    assert PeerOk(s.peers[c], s.calls[c]);
    hide Owned, LocksOk, PeersOk, Open, NextCall, CallOk, CallEnabled;
    var call := s.calls[c];
    if call.AddPush? || call.AddUnlock? {
      InsideAdd(policy, s, c);
    } else if call.BroadcastNext? || call.BroadcastSend? || call.BroadcastSent? {
      InsideBroadcast(policy, s, c);
    } else {
      InsideClose(policy, s, c);
    }
  }

  lemma InsideAdd(policy: Policy, s: State, c: nat)
    requires CallEnabled(policy, s, c) && (s.calls[c].AddPush? || s.calls[c].AddUnlock?)
    requires Open(s, s.vec) && PeerOk(s.peers[c], s.calls[c])
    ensures var t := NextCall(policy, s, c);
            |t.peers| == |t.calls| == |s.calls| && Open(t, t.vec) && CallOk(t, c)
  {
    hide Open;
    var t := NextCall(policy, s, c);
    if s.calls[c].AddPush? {
      PushOpen(s, t, c);
    } else {
      OpenOutside(s, t, c, s.vec);
    }
  }

  lemma InsideBroadcast(policy: Policy, s: State, c: nat)
    requires CallEnabled(policy, s, c) && CallOk(s, c) && Open(s, s.vec)
    requires s.calls[c].BroadcastNext? || s.calls[c].BroadcastSend? || s.calls[c].BroadcastSent?
    ensures var t := NextCall(policy, s, c);
            |t.peers| == |t.calls| == |s.calls| && Open(t, t.vec) && CallOk(t, c)
  {
    hide Open;
    OpenOutside(s, NextCall(policy, s, c), c, s.vec);
  }

  lemma InsideClose(policy: Policy, s: State, c: nat)
    requires CallEnabled(policy, s, c) && CallOk(s, c)
    requires s.calls[c].CloseNext? || s.calls[c].CloseSend? || s.calls[c].CloseSent?
    ensures var t := NextCall(policy, s, c);
            |t.peers| == |t.calls| == |s.calls| && Open(t, t.vec) && CallOk(t, c)
  {
    hide Open;
    var t := NextCall(policy, s, c);
    OpenNil(t);
    match s.calls[c] {
      case CloseNext(todo) =>
        if todo != [] {
          assert [todo[0]] + todo[1..] == todo;
          OpenOutside(s, t, c, todo);
        }
      case CloseSend(p, todo) =>
        CloseSendLists(s, p, todo);
        OpenExcept(s, t, c, p, todo);
      case CloseSent(p, todo) =>
        OpenOutside(s, t, c, todo);
    }
  }

  lemma OpenNil(s: State)
    requires |s.peers| == |s.calls|
    ensures Open(s, [])
  {
  }

  lemma PushOpen(s: State, t: State, c: nat)
    requires |s.peers| == |s.calls| && c < |s.calls| && s.calls[c].AddPush? && PeerOk(s.peers[c], s.calls[c])
    requires t.peers == s.peers && t.calls == s.calls[c := AddUnlock] && Open(s, s.vec)
    ensures Open(t, s.vec + [c])
  {
    assert c !in s.vec;
  }

  lemma OpenExcept(s: State, t: State, c: nat, q: PeerId, xs: seq<PeerId>)
    requires |s.peers| == |s.calls| == |t.peers| == |t.calls| && c < |s.calls| && Open(s, xs) && q !in xs
    requires forall d :: 0 <= d < |s.calls| && d != c ==> t.calls[d] == s.calls[d]
    requires s.calls[c].Pushed() ==> t.calls[c].Pushed()
    requires forall p :: 0 <= p < |s.peers| && p != q ==> t.peers[p].closes == s.peers[p].closes
    ensures Open(t, xs)
  {
  }

  lemma CloseSendLists(s: State, p: PeerId, todo: seq<PeerId>)
    requires |s.peers| == |s.calls| && Open(s, [p] + todo)
    ensures p !in todo && p < |s.calls| && s.calls[p].Pushed() && s.peers[p].closes == 0 && Open(s, todo)
  {
    var xs := [p] + todo;
    assert xs[0] == p && forall i :: 0 <= i < |todo| ==> todo[i] == xs[i + 1];
    assert p in xs;
    assert forall q :: q in todo ==> q in xs;
  }

  // ----- the locks

  lemma OutsideLocks(policy: Policy, s: State, c: nat)
    requires Inv(s) && CallEnabled(policy, s, c) && !s.calls[c].HoldsRegistry() && !s.calls[c].Start()
    ensures |NextCall(policy, s, c).peers| == |NextCall(policy, s, c).calls|
    ensures LocksOk(NextCall(policy, s, c))
  {
    var t := NextCall(policy, s, c);
    StepSizes(policy, s, c);
    OutsideStep(policy, s, c);
    assert Reading(s, c) == None && Reading(t, c) == None;
    assert forall p :: 0 <= p < |s.peers| && p != c ==> t.peers[p] == s.peers[p];
    assert LockOk(s, c);
    assert t.peers[c].writer == (if t.calls[c].HoldsPeerForWriting() then Some(c) else None);
    hide NextCall, Owned, ListsOk, PeersOk;
    forall p | 0 <= p < |t.peers| ensures LockOk(t, p) {
      assert LockOk(s, p);
      forall d: nat ensures d in t.peers[p].readers <==> d < |t.calls| && Reading(t, d) == Some(p) {
        if d < |s.calls| && d != c {
          assert Reading(t, d) == Reading(s, d);
        }
      }
    }
  }

  /** The call's next step ends with its read target in hand. */
  predicate Keeps(s: State, c: nat)
    requires c < |s.calls|
  {
    match s.calls[c]
    case BroadcastNext(_, i) => i < |s.vec|
    case CloseNext(todo) => todo != []
    case BroadcastSend(_, i) => i < |s.vec| && s.vec[i] < |s.peers| && s.peers[s.vec[i]].Started()
    case CloseSend(p, _) => p < |s.peers| && s.peers[p].Started()
    case _ => false
  }

  /** A step in the critical section, or into it, touches at most the peer the call looks at. */
  lemma TouchedPeer(policy: Policy, s: State, c: nat)
    requires CallEnabled(policy, s, c) && (s.calls[c].HoldsRegistry() || s.calls[c].Start())
    ensures var t := NextCall(policy, s, c);
            && |t.peers| == |s.peers|
            && (forall p :: 0 <= p < |s.peers| && ReadTarget(s, c) != Some(p) ==> t.peers[p] == s.peers[p])
            && (forall p :: 0 <= p < |s.peers| && ReadTarget(s, c) == Some(p) ==>
                  && t.peers[p].writer == s.peers[p].writer
                  && t.peers[p].readers
                     == (if !Keeps(s, c) then s.peers[p].readers - {c}
                         else if Reading(s, c) == None then s.peers[p].readers + {c}
                         else s.peers[p].readers))
  {
  }

  lemma TouchedCall(policy: Policy, s: State, c: nat)
    requires CallEnabled(policy, s, c) && (s.calls[c].HoldsRegistry() || s.calls[c].Start())
    ensures var t := NextCall(policy, s, c);
            && |t.calls| == |s.calls|
            && t.calls[c].HoldsPeerForWriting() == s.calls[c].HoldsPeerForWriting()
            && Reading(t, c) == (if Keeps(s, c) then ReadTarget(s, c) else None)
            && (Reading(s, c) == None || Reading(s, c) == ReadTarget(s, c))
            && (Reading(s, c) == None && !Keeps(s, c) ==> ReadTarget(s, c) == None)
  {
  }

  /** What a step in the critical section, or into it, does to the locks of the peers. */
  lemma InsideLockStep(policy: Policy, s: State, c: nat)
    requires Inv(s) && CallEnabled(policy, s, c) && (s.calls[c].HoldsRegistry() || s.calls[c].Start())
    ensures var t := NextCall(policy, s, c);
            && |t.peers| == |t.calls| == |s.calls|
            && t.calls[c].HoldsPeerForWriting() == s.calls[c].HoldsPeerForWriting()
            && forall p :: 0 <= p < |s.peers| ==>
                 t.peers[p].writer == s.peers[p].writer
                 && t.peers[p].readers
                    == (if Reading(t, c) == Some(p) then s.peers[p].readers + {c} else s.peers[p].readers - {c})
  {
    TouchedPeer(policy, s, c);
    TouchedCall(policy, s, c);
    var t := NextCall(policy, s, c);
    hide NextCall, CallEnabled, Owned, ListsOk, PeersOk, Keeps, Reading, ReadTarget;
    forall p | 0 <= p < |s.peers|
      ensures t.peers[p].readers
              == (if Reading(t, c) == Some(p) then s.peers[p].readers + {c} else s.peers[p].readers - {c})
    {
      assert LockOk(s, p);
      assert c in s.peers[p].readers <==> Reading(s, c) == Some(p);
    }
  }

  lemma InsideLocks(policy: Policy, s: State, c: nat)
    requires Inv(s) && CallEnabled(policy, s, c) && (s.calls[c].HoldsRegistry() || s.calls[c].Start())
    ensures |NextCall(policy, s, c).peers| == |NextCall(policy, s, c).calls|
    ensures LocksOk(NextCall(policy, s, c))
  {
    var t := NextCall(policy, s, c);
    InsideLockStep(policy, s, c);
    StepSizes(policy, s, c);
    hide NextCall, ListsOk, PeersOk;
    forall p | 0 <= p < |t.peers| ensures LockOk(t, p) {
      assert LockOk(s, p);
      forall d: nat ensures d in t.peers[p].readers <==> d < |t.calls| && Reading(t, d) == Some(p) {
        if d < |s.calls| && d != c {
          Alone(policy, s, c, d);
        }
      }
    }
  }

  // ----- the peers

  /** A call that is about to send has an open peer in hand. */
  lemma TargetOpen(s: State, c: nat)
    requires Inv(s) && c < |s.calls| && (s.calls[c].BroadcastSend? || s.calls[c].CloseSend?)
    ensures ReadTarget(s, c).Some?
    ensures var p := ReadTarget(s, c).value;
            p < |s.peers| && s.peers[p].closes == 0 && s.calls[p].Pushed() && p != c
  {
    assert CallOk(s, c);
    match s.calls[c] {
      case BroadcastSend(_, i) => assert s.vec[i] in s.vec;
      case CloseSend(p, todo) => CloseSendLists(s, p, todo);
    }
  }

  /** Steps that leave all channels alone. */
  lemma QuietPeers(policy: Policy, s: State, c: nat)
    requires CallEnabled(policy, s, c)
    requires !s.calls[c].BroadcastSend? && !s.calls[c].CloseSend? && !s.calls[c].AddStart?
    ensures var t := NextCall(policy, s, c);
            && t.errors == s.errors && |t.peers| == |s.peers|
            && t.calls[c].HasStarted() == s.calls[c].HasStarted()
            && forall q :: 0 <= q < |s.peers| ==>
                 t.peers[q] == s.peers[q].(readers := t.peers[q].readers, writer := t.peers[q].writer)
  {
  }

  /** Starting a peer and sending to one. */
  lemma ChannelStep(policy: Policy, s: State, c: nat)
    requires Inv(s) && CallEnabled(policy, s, c)
    requires s.calls[c].BroadcastSend? || s.calls[c].CloseSend? || s.calls[c].AddStart?
    ensures var t := NextCall(policy, s, c);
            && t.errors == WithError(s.errors, if |t.errors| > |s.errors| then Some(Full) else None)
            && |t.peers| == |t.calls| == |s.peers|
            && forall q :: 0 <= q < |s.peers| ==>
                 (t.peers[q] == s.peers[q] && q != c) || PeerOk(t.peers[q], t.calls[q])
  {
    StepSizes(policy, s, c);
    assert PeerOk(s.peers[c], s.calls[c]);
    if !s.calls[c].AddStart? {
      TargetOpen(s, c);
      var p := ReadTarget(s, c).value;
      assert PeerOk(s.peers[p], s.calls[p]);
      if s.peers[p].Started() {
        if s.calls[c].BroadcastSend? {
          TrySendOk(s.peers[p], s.calls[p], s.calls[c].val);
        } else {
          SendCloseOk(s.peers[p], s.calls[p]);
        }
      }
    }
    hide Inv, TrySend, SendClose;
  }

  lemma StepPeers(policy: Policy, s: State, c: nat)
    requires Inv(s) && CallEnabled(policy, s, c)
    ensures |NextCall(policy, s, c).peers| == |NextCall(policy, s, c).calls|
    ensures PeersOk(NextCall(policy, s, c))
  {
    hide NextCall, ListsOk, LocksOk, Owned;
    var t := NextCall(policy, s, c);
    StepSizes(policy, s, c);
    if s.calls[c].BroadcastSend? || s.calls[c].CloseSend? || s.calls[c].AddStart? {
      ChannelStep(policy, s, c);
    } else {
      QuietPeers(policy, s, c);
    }
    forall q | 0 <= q < |t.peers| ensures PeerOk(t.peers[q], t.calls[q]) {
      assert PeerOk(s.peers[q], s.calls[q]);
    }
  }

  lemma PollStep(policy: Policy, s: State, p: PeerId)
    requires Inv(s) && Enabled(policy, s, Poll(p))
    ensures Inv(Next(policy, s, Poll(p)))
  {
    var t := Next(policy, s, Poll(p));
    PollOk(s.peers[p], s.calls[p]);
    hide PollPeer, Open, LockOk, Owned, PeerOk;
    OpenPoll(s, t, s.vec);
    forall d | 0 <= d < |t.calls| ensures CallOk(t, d) {
      assert CallOk(s, d);
      match s.calls[d] {
        case CloseNext(todo) => OpenPoll(s, t, todo);
        case CloseSend(q, todo) => OpenPoll(s, t, [q] + todo);
        case CloseSent(q, todo) => OpenPoll(s, t, todo);
        case _ =>
      }
    }
    forall q | 0 <= q < |t.peers| ensures LockOk(t, q) {
      LockPoll(s, t, q);
    }
    OwnedPoll(s, t);
  }

  lemma OpenPoll(s: State, t: State, xs: seq<PeerId>)
    requires |s.peers| == |s.calls| == |t.peers| && t.calls == s.calls && Open(s, xs)
    requires forall p :: 0 <= p < |s.peers| ==> t.peers[p].closes == s.peers[p].closes
    ensures Open(t, xs)
  {
  }

  lemma LockPoll(s: State, t: State, p: PeerId)
    requires p < |s.peers| == |s.calls| == |t.peers| && t.calls == s.calls && t.vec == s.vec && LockOk(s, p)
    requires t.peers[p].readers == s.peers[p].readers && t.peers[p].writer == s.peers[p].writer
    ensures LockOk(t, p)
  {
    assert forall c: nat :: c < |s.calls| ==> Reading(t, c) == Reading(s, c);
  }

  lemma OwnedPoll(s: State, t: State)
    requires t.calls == s.calls && t.owner == s.owner && Owned(s)
    ensures Owned(t)
  {
  }

  /** No step breaks the invariant. */
  lemma StepSafe(policy: Policy, s: State, m: Move)
    requires Inv(s) && Enabled(policy, s, m)
    ensures Inv(Next(policy, s, m))
  {
    hide NextCall, ListsOk, LocksOk, PeersOk;
    match m {
      case Poll(p) => PollStep(policy, s, p);
      case CallStep(c) =>
        StepOwned(policy, s, c);
        StepPeers(policy, s, c);
        if s.calls[c].HoldsRegistry() {
          InsideLists(policy, s, c);
          InsideLocks(policy, s, c);
        } else if s.calls[c].Start() {
          EnterLists(policy, s, c);
          InsideLocks(policy, s, c);
        } else {
          OutsideLists(policy, s, c);
          OutsideLocks(policy, s, c);
        }
    }
  }

  lemma {:induction false} RunSafe(policy: Policy, s: State, moves: seq<Move>)
    requires Inv(s) && ValidRun(policy, s, moves)
    ensures Inv(Run(policy, s, moves))
    decreases |moves|
  {
    hide Inv, Next, Enabled;
    if moves != [] {
      StepSafe(policy, s, moves[0]);
      RunSafe(policy, Next(policy, s, moves[0]), moves[1..]);
    }
  }
}
