/** The peers registry of inputs/grin_24i0013/src/main.rs as a machine.

    Any number of add_peer, broadcast and close_peers calls run at once, and every peer that has been
    started has a polling thread.  Locking, unlocking and every operation on a channel is a step of
    its own; a call that waits for a lock has no step until the lock is free. */
module RegistryMachine {
  import opened Common

  type Val = int
  /** A peer is named by the add_peer call that made it. */
  type PeerId = nat

  /** The bound of the channel to a peer. */
  const CAPACITY: nat := 10

  /** Whether a reader/writer lock lets a reader in while a writer waits. */
  datatype Policy = ReadersFirst | WritersFirst

  /** Where the polling thread of a peer is; unborn until the peer is started. */
  datatype Poller = Unborn | AtRecv | AtClose | Ended

  /** A peer behind its lock, with its two channels.  `accepted`, `received`, `closes` and `late`
      record what has happened: the values that try_send took and try_recv returned, the close
      messages sent, and the values received after the first of them. */
  datatype Peer = Peer(
    readers: set<nat>,
    writer: Option<nat>,
    poller: Poller,
    queue: seq<Val>,
    pending: nat,
    accepted: seq<Val>,
    received: seq<Val>,
    closes: nat,
    late: nat)
  {
    predicate Started() { !poller.Unborn? }
  }

  function NewPeer(): Peer {
    Peer({}, None, Unborn, [], 0, [], [], 0, 0)
  }

  /** Where a call is.  The name says what comes next. */
  datatype Call =
    | AddLock                                   // peers.write()
    | AddPush                                   // holds the registry
    | AddUnlock                                 // holds the registry
    | AddSleep
    | AddWait                                   // insert_peer.write()
    | AddStart                                  // holds its peer for writing
    | AddStartUnlock                            // holds its peer for writing
    | Added
    | BroadcastLock(val: Val)                   // peers.write()
    | BroadcastNext(val: Val, i: nat)           // holds the registry; peer.read(), or leaves the loop
    | BroadcastSend(val: Val, i: nat)           // holds the registry, and peer i for reading
    | BroadcastSent(val: Val, i: nat)           // holds the registry, and peer i for reading
    | BroadcastDone
    | CloseLock                                 // peers.write()
    | CloseNext(todo: seq<PeerId>)              // holds the registry; peer.read(), or leaves the loop
    | CloseSend(peer: PeerId, todo: seq<PeerId>)  // holds the registry, and the peer for reading
    | CloseSent(peer: PeerId, todo: seq<PeerId>)  // holds the registry, and the peer for reading
    | CloseDone
    | Panicked
  {
    predicate Done() { Added? || BroadcastDone? || CloseDone? || Panicked? }
    predicate Start() { AddLock? || BroadcastLock? || CloseLock? }
    predicate Locking() { Start() }
    predicate HoldsRegistry() {
      AddPush? || AddUnlock? || BroadcastNext? || BroadcastSend? || BroadcastSent? || CloseNext? || CloseSend?
          || CloseSent?
    }
    predicate HoldsPeerForWriting() { AddStart? || AddStartUnlock? }
    /** The call is an add_peer that has pushed its peer. */
    predicate Pushed() { AddUnlock? || AddSleep? || AddWait? || AddStart? || AddStartUnlock? || Added? }
    /** The call is an add_peer that has started its peer. */
    predicate HasStarted() { AddStartUnlock? || Added? }
  }

  datatype SendError = Full | Disconnected | CloseFailed

  datatype State = State(
    owner: Option<nat>,
    poisoned: bool,
    vec: seq<PeerId>,
    peers: seq<Peer>,
    calls: seq<Call>,
    errors: seq<SendError>)

  datatype Move = CallStep(call: nat) | Poll(peer: PeerId)

  /** The peer that call c holds for reading, or is about to read. */
  function ReadTarget(s: State, c: nat): Option<PeerId>
    requires c < |s.calls|
  {
    match s.calls[c]
    case BroadcastNext(_, i) => if i < |s.vec| then Some(s.vec[i]) else None
    case BroadcastSend(_, i) => if i < |s.vec| then Some(s.vec[i]) else None
    case BroadcastSent(_, i) => if i < |s.vec| then Some(s.vec[i]) else None
    case CloseNext(todo) => if todo != [] then Some(todo[0]) else None
    case CloseSend(p, _) => Some(p)
    case CloseSent(p, _) => Some(p)
    case _ => None
  }

  /** The lock of peer p grants a read. */
  predicate CanRead(policy: Policy, s: State, p: PeerId)
    requires p < |s.peers| == |s.calls|
  {
    s.peers[p].writer.None? && (policy == WritersFirst ==> !s.calls[p].AddWait?)
  }

  predicate CallEnabled(policy: Policy, s: State, c: nat) {
    && c < |s.calls| == |s.peers|
    && (ReadTarget(s, c).Some? ==> ReadTarget(s, c).value < |s.peers|)
    && match s.calls[c]
       case AddLock => s.owner.None?
       case BroadcastLock(_) => s.owner.None?
       case CloseLock => s.owner.None?
       case AddWait => s.peers[c].readers == {} && s.peers[c].writer.None?
       case BroadcastNext(_, i) => i < |s.vec| ==> CanRead(policy, s, s.vec[i])
       case CloseNext(todo) => todo != [] ==> CanRead(policy, s, todo[0])
       case BroadcastSend(_, i) => i < |s.vec|
       case BroadcastSent(_, i) => i < |s.vec|
       case _ => !s.calls[c].Done()
  }

  predicate Enabled(policy: Policy, s: State, m: Move) {
    match m
    case CallStep(c) => CallEnabled(policy, s, c)
    case Poll(p) => p < |s.peers| && (s.peers[p].poller.AtRecv? || s.peers[p].poller.AtClose?)
  }

  // ----- what the operations do to one peer

  /** `try_send`. */
  function TrySend(peer: Peer, v: Val): (Peer, Option<SendError>) {
    if peer.poller.Ended? then (peer, Some(Disconnected))
    else if |peer.queue| >= CAPACITY then (peer, Some(Full))
    else (peer.(queue := peer.queue + [v], accepted := peer.accepted + [v]), None)
  }

  /** `send` on the close channel. */
  function SendClose(peer: Peer): (Peer, Option<SendError>) {
    if peer.poller.Ended? then (peer, Some(CloseFailed))
    else (peer.(pending := peer.pending + 1, closes := peer.closes + 1), None)
  }

  /** One `try_recv` of the polling loop. */
  function PollPeer(peer: Peer): Peer {
    match peer.poller
    case AtRecv =>
      if peer.queue == [] then peer.(poller := AtClose)
      else peer.(poller := AtClose, queue := peer.queue[1..], received := peer.received + [peer.queue[0]],
                 late := peer.late + (if peer.closes > 0 then 1 else 0))
    case AtClose =>
      if peer.pending == 0 then peer.(poller := AtRecv) else peer.(poller := Ended, pending := peer.pending - 1)
    case _ => peer
  }

  function WithError(errors: seq<SendError>, e: Option<SendError>): seq<SendError> {
    if e.Some? then errors + [e.value] else errors
  }

  // ----- the steps

  /** Call c gets the registry, or panics because the lock is poisoned. */
  function Acquire(s: State, c: nat, then': Call, vec: seq<PeerId>): State
    requires c < |s.calls|
  {
    if s.poisoned then s.(calls := s.calls[c := Panicked])
    else s.(owner := Some(c), vec := vec, calls := s.calls[c := then'])
  }

  function Release(s: State, c: nat, then': Call): State
    requires c < |s.calls|
  {
    s.(owner := None, calls := s.calls[c := then'])
  }

  function SetPeer(s: State, c: nat, then': Call, p: PeerId, peer: Peer): State
    requires c < |s.calls| && p < |s.peers|
  {
    s.(peers := s.peers[p := peer], calls := s.calls[c := then'])
  }

  /** Call c unwinds: both guards are dropped and the registry is poisoned. */
  function Panic(s: State, c: nat, p: PeerId): State
    requires c < |s.calls| && p < |s.peers|
  {
    s.(owner := None, poisoned := true, calls := s.calls[c := Panicked],
       peers := s.peers[p := s.peers[p].(readers := s.peers[p].readers - {c})])
  }

  function NextCall(policy: Policy, s: State, c: nat): State
    requires CallEnabled(policy, s, c)
  {
    match s.calls[c]
    case AddLock => Acquire(s, c, AddPush, s.vec)
    case AddPush => s.(vec := s.vec + [c], calls := s.calls[c := AddUnlock])
    case AddUnlock => Release(s, c, AddSleep)
    case AddSleep => s.(calls := s.calls[c := AddWait])
    case AddWait => SetPeer(s, c, AddStart, c, s.peers[c].(writer := Some(c)))
    case AddStart => SetPeer(s, c, AddStartUnlock, c, s.peers[c].(poller := AtRecv))
    case AddStartUnlock => SetPeer(s, c, Added, c, s.peers[c].(writer := None))
    case BroadcastLock(v) => Acquire(s, c, BroadcastNext(v, 0), s.vec)
    case BroadcastNext(v, i) =>
      if i >= |s.vec| then Release(s, c, BroadcastDone)
      else
        var peer := s.peers[s.vec[i]];
        SetPeer(s, c, BroadcastSend(v, i), s.vec[i], peer.(readers := peer.readers + {c}))
    case BroadcastSend(v, i) =>
      var peer := s.peers[s.vec[i]];
      if !peer.Started() then Panic(s, c, s.vec[i])
      else
        var (peer', e) := TrySend(peer, v);
        SetPeer(s, c, BroadcastSent(v, i), s.vec[i], peer').(errors := WithError(s.errors, e))
    case BroadcastSent(v, i) =>
      var peer := s.peers[s.vec[i]];
      SetPeer(s, c, BroadcastNext(v, i + 1), s.vec[i], peer.(readers := peer.readers - {c}))
    case CloseLock => Acquire(s, c, CloseNext(s.vec), [])
    case CloseNext(todo) =>
      if todo == [] then Release(s, c, CloseDone)
      else
        var peer := s.peers[todo[0]];
        SetPeer(s, c, CloseSend(todo[0], todo[1..]), todo[0], peer.(readers := peer.readers + {c}))
    case CloseSend(p, todo) =>
      var peer := s.peers[p];
      if !peer.Started() then Panic(s, c, p)
      else
        var (peer', e) := SendClose(peer);
        SetPeer(s, c, CloseSent(p, todo), p, peer').(errors := WithError(s.errors, e))
    case CloseSent(p, todo) =>
      var peer := s.peers[p];
      SetPeer(s, c, CloseNext(todo), p, peer.(readers := peer.readers - {c}))
    case _ => s
  }

  function Next(policy: Policy, s: State, m: Move): State
    requires Enabled(policy, s, m)
  {
    match m
    case CallStep(c) => NextCall(policy, s, c)
    case Poll(p) => s.(peers := s.peers[p := PollPeer(s.peers[p])])
  }

  ghost predicate ValidRun(policy: Policy, s: State, moves: seq<Move>)
    decreases |moves|
  {
    moves == [] || (Enabled(policy, s, moves[0]) && ValidRun(policy, Next(policy, s, moves[0]), moves[1..]))
  }

  ghost function Run(policy: Policy, s: State, moves: seq<Move>): State
    requires ValidRun(policy, s, moves)
    decreases |moves|
  {
    if moves == [] then s else Run(policy, Next(policy, s, moves[0]), moves[1..])
  }

  lemma RunCons(policy: Policy, s: State, m: Move, rest: seq<Move>)
    requires Enabled(policy, s, m) && ValidRun(policy, Next(policy, s, m), rest)
    ensures ValidRun(policy, s, [m] + rest)
    ensures Run(policy, s, [m] + rest) == Run(policy, Next(policy, s, m), rest)
  {
    assert ([m] + rest)[1..] == rest;
  }

  lemma {:induction false} RunAppend(policy: Policy, s: State, xs: seq<Move>, ys: seq<Move>)
    requires ValidRun(policy, s, xs) && ValidRun(policy, Run(policy, s, xs), ys)
    ensures ValidRun(policy, s, xs + ys)
    ensures Run(policy, s, xs + ys) == Run(policy, Run(policy, s, xs), ys)
    decreases |xs|
  {
    hide Next, Enabled;
    if xs == [] {
      assert xs + ys == ys;
    } else {
      RunAppend(policy, Next(policy, s, xs[0]), xs[1..], ys);
      RunCons(policy, s, xs[0], xs[1..] + ys);
      assert xs + ys == [xs[0]] + (xs[1..] + ys);
    }
  }

  /** An empty registry with any number of calls about to start. */
  predicate Initial(s: State) {
    && s.owner.None? && !s.poisoned && s.vec == [] && s.errors == []
    && |s.peers| == |s.calls|
    && (forall p :: 0 <= p < |s.peers| ==> s.peers[p] == NewPeer())
    && (forall c :: 0 <= c < |s.calls| ==> s.calls[c].Start())
  }
}
