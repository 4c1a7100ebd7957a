/** The state word of the one-shot channel: two bits, set by fetch_or and never cleared. */
module ChannelWord {
  type Word = bv64

  const VALUE_SENT: Word := 0x2
  const CLOSED: Word := 0x4

  /** State::is_complete and State::is_closed. */
  predicate IsComplete(w: Word) { w & VALUE_SENT == VALUE_SENT }
  predicate IsClosed(w: Word) { w & CLOSED == CLOSED }

  /** The bits that are not flags. */
  function Rest(w: Word): Word { w & 0xFFFF_FFFF_FFFF_FFF9 }

  /** What the protocol sees of the word. */
  datatype Flags = Flags(sent: bool, closed: bool)

  function FlagsOf(w: Word): Flags { Flags(IsComplete(w), IsClosed(w)) }

  datatype FetchOr = SetComplete | SetClosed

  function SetWord(w: Word, op: FetchOr): Word {
    w | (if op.SetComplete? then VALUE_SENT else CLOSED)
  }

  function SetFlag(f: Flags, op: FetchOr): Flags {
    if op.SetComplete? then f.(sent := true) else f.(closed := true)
  }

  lemma OrSent(w: Word)
    ensures IsComplete(w | VALUE_SENT) && (IsClosed(w | VALUE_SENT) <==> IsClosed(w))
    ensures Rest(w | VALUE_SENT) == Rest(w)
  {
  }

  lemma OrClosed(w: Word)
    ensures IsClosed(w | CLOSED) && (IsComplete(w | CLOSED) <==> IsComplete(w))
    ensures Rest(w | CLOSED) == Rest(w)
  {
  }

  /** One fetch_or sets its own flag and nothing else. */
  lemma FetchOrRefines(w: Word, op: FetchOr)
    ensures FlagsOf(SetWord(w, op)) == SetFlag(FlagsOf(w), op)
    ensures Rest(SetWord(w, op)) == Rest(w)
  {
    if op.SetComplete? {
      OrSent(w);
    } else {
      OrClosed(w);
    }
  }

  /** The word after some fetch_or operations. */
  function After(w: Word, ops: seq<FetchOr>): Word {
    if ops == [] then w else SetWord(After(w, ops[..|ops| - 1]), ops[|ops| - 1])
  }

  /** What operation i returned: the word before it. */
  function Previous(w: Word, ops: seq<FetchOr>, i: nat): Word
    requires i < |ops|
  {
    After(w, ops[..i])
  }

  /** The word is two independent monotone booleans and nothing else: after any operations a flag is
      up exactly when it was up at the start or some operation raised it, and no other bit moved. */
  lemma {:induction false} WordIsTwoBooleans(w: Word, ops: seq<FetchOr>)
    ensures FlagsOf(After(w, ops)) ==
            Flags(FlagsOf(w).sent || SetComplete in ops, FlagsOf(w).closed || SetClosed in ops)
    ensures Rest(After(w, ops)) == Rest(w)
  {
    hide FlagsOf, Rest, SetWord;
    if ops != [] {
      var front, last := ops[..|ops| - 1], ops[|ops| - 1];
      WordIsTwoBooleans(w, front);
      FetchOrRefines(After(w, front), last);
      assert ops == front + [last];
    }
  }

  /** On a fresh word the previous values tell who was first: the first SetComplete sees CLOSED
      exactly when a SetClosed came before it, and the other way round, so exactly one of the two
      sees the other. */
  lemma PreviousTellsOrder(w: Word, ops: seq<FetchOr>, i: nat, j: nat)
    requires FlagsOf(w) == Flags(false, false) && i < |ops| && j < |ops|
    requires ops[i] == SetComplete && SetComplete !in ops[..i]
    requires ops[j] == SetClosed && SetClosed !in ops[..j]
    ensures FlagsOf(Previous(w, ops, i)).closed <==> j < i
    ensures FlagsOf(Previous(w, ops, j)).sent <==> i < j
  {
    WordIsTwoBooleans(w, ops[..i]);
    WordIsTwoBooleans(w, ops[..j]);
    FirstIndex(ops, SetClosed, i, j);
    FirstIndex(ops, SetComplete, j, i);
  }

  lemma FirstIndex(ops: seq<FetchOr>, op: FetchOr, i: nat, first: nat)
    requires i < |ops| && first < |ops| && ops[first] == op && op !in ops[..first] && ops[i] != op
    ensures op in ops[..i] <==> first < i
  {
    if first < i {
      assert ops[..i][first] == op;
    } else {
      forall k | 0 <= k < i ensures ops[..i][k] != op {
        assert ops[..first][k] == ops[k];
      }
    }
  }
}
