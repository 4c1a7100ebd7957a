/** From probe calls to the report: what the report script makes of a log written by any number of
    concurrent threads. */
module TraceReport {
  import opened Common
  import opened TracerIR
  import opened TracerPass
  import opened LogText
  import opened AtomReport
  import ProbeLog

  // ----- the groups

  /** The positions of the records with address a, in order. */
  function Positions(logs: seq<Log>, a: string): seq<nat>
    requires Wide(logs)
  {
    if logs == [] then []
    else
      var n := |logs| - 1;
      Positions(logs[..n], a) + (if logs[n][3] == a then [n] else [])
  }

  lemma {:induction false} PositionsInOrder(logs: seq<Log>, a: string)
    requires Wide(logs)
    ensures var ps := Positions(logs, a);
            && (forall i :: 0 <= i < |ps| ==> ps[i] < |logs|)
            && (forall i, j :: 0 <= i < j < |ps| ==> ps[i] < ps[j])
            && (forall k :: 0 <= k < |logs| && logs[k][3] == a ==> k in ps)
  {
    if logs != [] {
      var n := |logs| - 1;
      PositionsInOrder(logs[..n], a);
      var front := Positions(logs[..n], a);
      forall k | 0 <= k < |logs| && logs[k][3] == a ensures k in Positions(logs, a) {
        if k < n {
          assert logs[..n][k] == logs[k];
          assert k in front;
        } else {
          assert Positions(logs, a) == front + [n];
        }
      }
    }
  }

  lemma {:induction false} GroupAtPositions(logs: seq<Log>, a: string)
    requires Wide(logs)
    ensures var ps := Positions(logs, a);
            && |Group(logs, a)| == |ps|
            && (forall i :: 0 <= i < |ps| ==> ps[i] < |logs| && Group(logs, a)[i] == logs[ps[i]] && logs[ps[i]][3] == a)
  {
    if logs != [] {
      GroupAtPositions(logs[..|logs| - 1], a);
    }
  }

  /** A group is the order-preserving subsequence of exactly the records with its address. */
  lemma GroupIsSubsequence(logs: seq<Log>, a: string)
    requires Wide(logs)
    ensures var ps := Positions(logs, a);
            && |Group(logs, a)| == |ps|
            && (forall i :: 0 <= i < |ps| ==> ps[i] < |logs| && Group(logs, a)[i] == logs[ps[i]])
            && (forall i, j :: 0 <= i < j < |ps| ==> ps[i] < ps[j])
            && (forall k :: 0 <= k < |logs| ==> (k in ps <==> logs[k][3] == a))
  {
    PositionsInOrder(logs, a);
    GroupAtPositions(logs, a);
  }

  /** The groups, in the order of their keys. */
  function Groups(logs: seq<Log>, keys: seq<string>): (gs: seq<multiset<Log>>)
    requires Wide(logs)
    ensures |gs| == |keys|
  {
    seq(|keys|, k requires 0 <= k < |keys| => multiset(Group(logs, keys[k])))
  }

  predicate Distinct(keys: seq<string>) { forall i, j :: 0 <= i < j < |keys| ==> keys[i] != keys[j] }

  lemma {:induction false} KeysDistinct(logs: seq<Log>)
    requires Wide(logs)
    ensures Distinct(Keys(logs))
  {
    if logs != [] {
      KeysDistinct(logs[..|logs| - 1]);
    }
  }

  /** Keys come in the order in which their addresses are first seen. */
  lemma {:induction false} KeysInOrder(logs: seq<Log>, i: nat, j: nat) returns (p: nat)
    requires Wide(logs) && i < j < |Keys(logs)|
    ensures p < |logs| && logs[p][3] == Keys(logs)[i]
    ensures forall q :: 0 <= q <= p ==> logs[q][3] != Keys(logs)[j]
    decreases |logs|
  {
    var n := |logs| - 1;
    var front := Keys(logs[..n]);
    if j < |front| {
      p := KeysInOrder(logs[..n], i, j);
      assert logs[..n][p] == logs[p];
      forall q | 0 <= q <= p ensures logs[q][3] != Keys(logs)[j] {
        assert logs[..n][q] == logs[q];
      }
    } else {
      assert front[i] in front;
      p := Seen(logs[..n], front[i]);
      assert logs[..n][p] == logs[p];
      forall q | 0 <= q <= p ensures logs[q][3] != Keys(logs)[j] {
        SeenIsKey(logs[..n], q);
        assert logs[..n][q] == logs[q];
      }
    }
  }

  lemma {:induction false} Seen(logs: seq<Log>, a: string) returns (p: nat)
    requires Wide(logs) && a in Keys(logs)
    ensures p < |logs| && logs[p][3] == a
  {
    GroupMembers(logs, a);
    var g := Group(logs, a)[0];
    assert g in Group(logs, a);
    p :| p < |logs| && logs[p] == g;
  }

  lemma SeenIsKey(logs: seq<Log>, q: nat)
    requires Wide(logs) && q < |logs|
    ensures logs[q][3] in Keys(logs)
  {
    GroupMembers(logs, logs[q][3]);
    assert logs[q] in Group(logs, logs[q][3]);
  }

  lemma {:induction false} UnionSnoc<T>(bags: seq<multiset<T>>, bag: multiset<T>)
    ensures Union(bags + [bag]) == Union(bags) + bag
  {
    if bags == [] {
      assert bags + [bag] == [bag] && [bag][1..] == [];
    } else {
      assert (bags + [bag])[1..] == bags[1..] + [bag] && (bags + [bag])[0] == bags[0];
      UnionSnoc(bags[1..], bag);
      assert bags[0] + (Union(bags[1..]) + bag) == bags[0] + Union(bags[1..]) + bag;
    }
  }

  /** The grouping loop conserves the log: every record is in exactly one group, as often as it is in
      the log. */
  lemma {:induction false} GroupsPartition(logs: seq<Log>)
    requires Wide(logs)
    ensures Union(Groups(logs, Keys(logs))) == multiset(logs)
  {
    if logs == [] {
      assert Groups(logs, Keys(logs)) == [];
    } else {
      var n := |logs| - 1;
      var front, log := logs[..n], logs[n];
      GroupsPartition(front);
      assert logs == front + [log];
      Snoc(front, log);
      KeysDistinct(front);
      GroupsGrow(front, log);
    }
  }

  lemma GroupsGrow(front: seq<Log>, log: Log)
    requires Wide(front) && |log| > 3 && Distinct(Keys(front))
    ensures Wide(front + [log])
    ensures Union(Groups(front + [log], Keys(front + [log]))) == Union(Groups(front, Keys(front))) + multiset{log}
  {
    Snoc(front, log);
    if log[3] in Keys(front) {
      OldGroupGrows(front, log);
    } else {
      NewGroupStarts(front, log);
    }
  }

  lemma BagGrows(front: seq<Log>, log: Log, a: string)
    requires Wide(front) && |log| > 3 && Wide(front + [log])
    ensures log[3] == a ==> multiset(Group(front + [log], a)) == multiset(Group(front, a)) + multiset{log}
    ensures log[3] != a ==> Group(front + [log], a) == Group(front, a)
  {
    Snoc(front, log);
  }

  lemma OldGroupGrows(front: seq<Log>, log: Log)
    requires Wide(front) && |log| > 3 && Distinct(Keys(front)) && log[3] in Keys(front) && Wide(front + [log])
    ensures Union(Groups(front + [log], Keys(front))) == Union(Groups(front, Keys(front))) + multiset{log}
  {
    var keys := Keys(front);
    var before, after := Groups(front, keys), Groups(front + [log], keys);
    var k: nat :| k < |keys| && keys[k] == log[3];
    forall i | 0 <= i < |keys| ensures after[i] == if i == k then before[k] + multiset{log} else before[i] {
      BagGrows(front, log, keys[i]);
      assert i != k ==> keys[i] != keys[k];
    }
    OneBagGrows(before, after, k, multiset{log});
  }

  lemma OneBagGrows<T>(before: seq<multiset<T>>, after: seq<multiset<T>>, k: nat, bag: multiset<T>)
    requires |after| == |before| && k < |before|
    requires forall i :: 0 <= i < |before| ==> after[i] == if i == k then before[k] + bag else before[i]
    ensures Union(after) == Union(before) + bag
  {
    UnionUpdate(before, k, before[k] + bag);
    assert after == before[k := before[k] + bag];
    CancelBag(Union(after), before[k], Union(before), bag);
  }

  lemma NewGroupStarts(front: seq<Log>, log: Log)
    requires Wide(front) && |log| > 3 && log[3] !in Keys(front) && Wide(front + [log])
    ensures Union(Groups(front + [log], Keys(front) + [log[3]])) == Union(Groups(front, Keys(front))) + multiset{log}
  {
    hide Keys, Groups, Wide, Group, Union;
    var keys := Keys(front);
    OldGroupsKept(front, log, keys);
    FirstOfGroup(front, log);
    GroupsSnoc(front + [log], keys, log[3]);
    UnionSnoc(Groups(front, keys), multiset{log});
  }

  lemma FirstOfGroup(front: seq<Log>, log: Log)
    requires Wide(front) && |log| > 3 && log[3] !in Keys(front) && Wide(front + [log])
    ensures multiset(Group(front + [log], log[3])) == multiset{log}
  {
    GroupMembers(front, log[3]);
    Snoc(front, log);
    assert Group(front + [log], log[3]) == [log];
  }

  lemma GroupsSnoc(logs: seq<Log>, keys: seq<string>, a: string)
    requires Wide(logs)
    ensures Groups(logs, keys + [a]) == Groups(logs, keys) + [multiset(Group(logs, a))]
  {
  }

  lemma OldGroupsKept(front: seq<Log>, log: Log, keys: seq<string>)
    requires Wide(front) && |log| > 3 && log[3] !in keys && Wide(front + [log])
    ensures Groups(front + [log], keys) == Groups(front, keys)
  {
    forall i | 0 <= i < |keys| ensures multiset(Group(front + [log], keys[i])) == multiset(Group(front, keys[i])) {
      BagGrows(front, log, keys[i]);
      assert keys[i] in keys;
    }
  }

  lemma CancelBag<T>(u: multiset<T>, x: multiset<T>, v: multiset<T>, y: multiset<T>)
    requires u + x == v + (x + y)
    ensures u == v + y
  {
    assert v + (x + y) == (v + y) + x;
    forall e ensures u[e] == (v + y)[e] {
      assert (u + x)[e] == ((v + y) + x)[e];
    }
  }

  /** An address is reported exactly if two different threads have a record with it. */
  lemma SharedMeansTwoThreads(logs: seq<Log>, a: string)
    requires Wide(logs) && a in Keys(logs)
    ensures Shared(Nonempty(logs, a)) <==>
            exists i, j :: 0 <= i < |logs| && 0 <= j < |logs| && logs[i][3] == a && logs[j][3] == a
                && logs[i][0] != logs[j][0]
  {
    var g := Nonempty(logs, a);
    GroupMembers(logs, a);
    hide Group, Keys, Nonempty;
    if k :| 0 <= k < |g| && g[k][0] != g[0][0] {
      assert g[k] in g && g[0] in g;
      var i :| 0 <= i < |logs| && logs[i] == g[k];
      var j :| 0 <= j < |logs| && logs[j] == g[0];
      assert logs[i][3] == a && logs[j][3] == a && logs[i][0] != logs[j][0];
    }
    if i, j :| 0 <= i < |logs| && 0 <= j < |logs| && logs[i][3] == a && logs[j][3] == a && logs[i][0] != logs[j][0] {
      assert logs[i] in logs && logs[j] in logs;
      var m :| 0 <= m < |g| && g[m] == logs[i];
      var n :| 0 <= n < |g| && g[n] == logs[j];
      assert g[m][0] != g[0][0] || g[n][0] != g[0][0];
    }
  }

  // ----- from the threads' probe calls to the records the script sees

  /** What instrumented code hands to the logger: one of the operation names of the pass, and a function
      name as rustc mangles it, without comma and line ending. */
  predicate FromPass(es: seq<ProbeLog.Entry>) {
    forall k :: 0 <= k < |es| ==> Plain(es[k].action.record.func) && es[k].action.record.name in OPERATIONS
  }

  /** The operation names have no comma and no line ending. */
  lemma OperationsPlain()
    ensures forall name :: name in OPERATIONS ==> Plain(name)
  {
    AccessNamesPlain();
    LockNamesPlain();
    hide Plain;
  }

  lemma AccessNamesPlain()
    ensures Plain("store") && Plain("load") && Plain("lock") && Plain("unlock")
  {
  }

  lemma LockNamesPlain()
    ensures Plain("rwlock read lock") && Plain("rwlock read unlock")
    ensures Plain("rwlock write lock") && Plain("rwlock write unlock")
  {
  }

  predicate PlainNames(es: seq<ProbeLog.Entry>) {
    forall k :: 0 <= k < |es| ==> Plain(es[k].action.record.func) && Plain(es[k].action.record.name)
  }

  function Body(tid: nat, r: Record): string {
    Pointer(tid) + "," + (Decimal(AsInt32(r.line)) + "," + (r.func + "," + (Pointer(AsPointer(r.addr)) + "," + r.name)))
  }

  lemma BodyPlain(tid: nat, r: Record)
    requires Plain(r.func) && Plain(r.name)
    ensures Free(Body(tid, r), '\n') && Free(Body(tid, r), '\r') && Line(tid, r) == Body(tid, r) + "\n"
  {
    PointerPlain(tid);
    DecimalPlain(AsInt32(r.line));
    PointerPlain(AsPointer(r.addr));
  }

  function Bodies(es: seq<ProbeLog.Entry>): (r: seq<string>)
    ensures |r| == |es|
  {
    seq(|es|, k requires 0 <= k < |es| => Body(es[k].id, es[k].action.record))
  }

  lemma {:induction false} FlattenSnoc(ss: seq<string>, t: string)
    ensures Flatten(ss + [t]) == Flatten(ss) + t
  {
    if ss == [] {
      assert ss + [t] == [t] && [t][1..] == [];
    } else {
      assert (ss + [t])[1..] == ss[1..] + [t];
      FlattenSnoc(ss[1..], t);
    }
  }

  lemma {:induction false} TextIsLines(es: seq<ProbeLog.Entry>)
    requires PlainNames(es)
    ensures ProbeLog.Text(es) == Flatten(WithNewlines(Bodies(es)))
    ensures Free(ProbeLog.Text(es), '\r')
  {
    if es != [] {
      var n := |es| - 1;
      var front, line := WithNewlines(Bodies(es[..n])), Line(es[n].id, es[n].action.record);
      TextIsLines(es[..n]);
      BodyPlain(es[n].id, es[n].action.record);
      BodiesSnoc(es);
      FlattenSnoc(front, line);
    }
  }

  lemma BodiesSnoc(es: seq<ProbeLog.Entry>)
    requires es != [] && PlainNames(es)
    ensures var n := |es| - 1;
            WithNewlines(Bodies(es)) == WithNewlines(Bodies(es[..n])) + [Line(es[n].id, es[n].action.record)]
  {
    var n := |es| - 1;
    BodyPlain(es[n].id, es[n].action.record);
    Snoc1(Bodies(es), Bodies(es[..n]), WithNewlines(Bodies(es)), WithNewlines(Bodies(es[..n])));
  }

  lemma Snoc1(bs: seq<string>, fs: seq<string>, ws: seq<string>, vs: seq<string>)
    requires |bs| == |fs| + 1 && fs == bs[..|fs|]
    requires ws == WithNewlines(bs) && vs == WithNewlines(fs)
    ensures ws == vs + [bs[|fs|] + "\n"]
  {
  }

  /** The records as the script reads them. */
  function Records(es: seq<ProbeLog.Entry>): (r: seq<Log>)
    ensures |r| == |es|
  {
    seq(|es|, k requires 0 <= k < |es| => ReadFields(es[k].id, es[k].action.record))
  }

  /** The script reads back exactly the fields of the records, one by one and in order. */
  lemma TextReadsBack(es: seq<ProbeLog.Entry>)
    requires PlainNames(es)
    ensures Logs(LinesOf(Universal(ProbeLog.Text(es)))) == Records(es)
    ensures Wide(Records(es))
  {
    TextIsLines(es);
    UniversalPlain(ProbeLog.Text(es));
    forall k | 0 <= k < |es| ensures Free(Bodies(es)[k], '\n') {
      BodyPlain(es[k].id, es[k].action.record);
    }
    LinesRoundTrip(Bodies(es));
    forall k | 0 <= k < |es|
      ensures Split(WithNewlines(Bodies(es))[k], ',') == ReadFields(es[k].id, es[k].action.record)
    {
      BodyPlain(es[k].id, es[k].action.record);
      SplitRecoversFields(es[k].id, es[k].action.record);
    }
  }

  // ----- end to end

  /** Two different threads have a record whose address is printed as that of p. */
  ghost predicate PrintedByTwo(es: seq<ProbeLog.Entry>, p: nat) {
    exists i, j :: 0 <= i < |es| && 0 <= j < |es| && es[i].id != es[j].id
                   && AsPointer(es[i].action.record.addr) == p && AsPointer(es[j].action.record.addr) == p
  }

  /** Two different threads have a record with address p. */
  ghost predicate ProbedByTwo(es: seq<ProbeLog.Entry>, p: nat) {
    exists i, j :: 0 <= i < |es| && 0 <= j < |es| && es[i].id != es[j].id
                   && es[i].action.record.addr == p && es[j].action.record.addr == p
  }

  /** Every address is a 64-bit pointer. */
  predicate Pointers(es: seq<ProbeLog.Entry>) {
    forall k :: 0 <= k < |es| ==> 0 <= es[k].action.record.addr < 0x1_0000_0000_0000_0000
  }

  lemma PointersPrinted(es: seq<ProbeLog.Entry>, p: nat)
    requires Pointers(es)
    ensures PrintedByTwo(es, p) <==> ProbedByTwo(es, p)
  {
    hide AsPointer;
  }

  /** For any number of threads, any scripts and any interleaving of what instrumented code logs: once
      nobody is printing, the script reads from the log exactly the announced records, each thread's in
      program order; it runs through; the report announces an address exactly if two different threads
      probed it; and it announces the addresses in the order in which they were first probed. */
  lemma TraceToReport(s: ProbeLog.State, moves: seq<nat>, p: nat)
    requires ProbeLog.Initial(s) && ProbeLog.ValidRun(s, moves)
    requires ProbeLog.Run(s, moves).printer.None?
    requires FromPass(ProbeLog.RunView(s, ProbeLog.EmptyView(), moves).entries)
    ensures var t, v := ProbeLog.Run(s, moves), ProbeLog.RunView(s, ProbeLog.EmptyView(), moves);
            var logs := Logs(LinesOf(Universal(t.log)));
            && logs == Records(v.entries) && ProbeLog.OrderOk(t, v)
            && Wide(logs) && AllComplete(logs, |Keys(logs)|)
            && var out := ReportFor(logs, |Keys(logs)|);
               && (Header(Pointer(p)) in out <==> PrintedByTwo(v.entries, p))
               && (Pointers(v.entries) ==> ("address: [" + Pointer(p) + "]" in out <==> ProbedByTwo(v.entries, p)))
               && Headers(out) == HeaderLines(Reported(logs, |Keys(logs)|))
  {
    var es := ProbeLog.RunView(s, ProbeLog.EmptyView(), moves).entries;
    ProbeLog.LogIsInterleaving(s, moves);
    OperationsPlain();
    assert PlainNames(es);
    TextReadsBack(es);
    RecordsComplete(es);
    ReportedIffProbedByTwo(es, p);
    AnnouncedExact(Records(es), Pointer(p));
    ReportHeaders(Records(es), |Keys(Records(es))|);
    if Pointers(es) {
      PointersPrinted(es, p);
    }
  }

  /** In the same report, for an address that two threads probed: the line that announces it, then one line
      for every record with that address, in log order, that says which thread did what, then dashes. */
  lemma TraceToRows(s: ProbeLog.State, moves: seq<nat>, p: nat) returns (at: nat, hits: seq<nat>)
    requires ProbeLog.Initial(s) && ProbeLog.ValidRun(s, moves)
    requires ProbeLog.Run(s, moves).printer.None?
    requires var es := ProbeLog.RunView(s, ProbeLog.EmptyView(), moves).entries;
             FromPass(es) && Pointers(es) && ProbedByTwo(es, p)
    ensures var es := ProbeLog.RunView(s, ProbeLog.EmptyView(), moves).entries;
            var logs := Logs(LinesOf(Universal(ProbeLog.Run(s, moves).log)));
            && Hits(es, p, hits) && Wide(logs) && RowsAt(ReportFor(logs, |Keys(logs)|), at, es, p, hits)
  {
    var es := ProbeLog.RunView(s, ProbeLog.EmptyView(), moves).entries;
    ProbeLog.LogIsInterleaving(s, moves);
    OperationsPlain();
    assert PlainNames(es);
    TextReadsBack(es);
    at, hits := RowsOfEntries(es, p);
  }

  /** The positions of the records with address p, in order. */
  ghost predicate Hits(es: seq<ProbeLog.Entry>, p: nat, hits: seq<nat>) {
    && (forall m :: 0 <= m < |hits| ==> hits[m] < |es|)
    && (forall m, n :: 0 <= m < n < |hits| ==> hits[m] < hits[n])
    && (forall k :: 0 <= k < |es| ==> (k in hits <==> es[k].action.record.addr == p))
  }

  /** From line `at` on: the announcement of p, the rows of the given records, and dashes. */
  ghost predicate RowsAt(out: seq<string>, at: nat, es: seq<ProbeLog.Entry>, p: nat, hits: seq<nat>)
    requires forall m :: 0 <= m < |hits| ==> hits[m] < |es|
  {
    && at + |hits| + 2 <= |out|
    && out[at] == "address: [" + Pointer(p) + "]"
    && (forall m :: 0 <= m < |hits| ==> out[at + 1 + m] == ThreadRow(es[hits[m]]))
    && Dashes(out[at + 1 + |hits|])
  }

  ghost function ThreadRow(e: ProbeLog.Entry): string {
    "TID: " + Pointer(e.id) + " OP: " + e.action.record.name + "\n"
  }

  lemma RowsOfEntries(es: seq<ProbeLog.Entry>, p: nat) returns (at: nat, hits: seq<nat>)
    requires Pointers(es) && ProbedByTwo(es, p)
    ensures Wide(Records(es)) && Hits(es, p, hits)
    ensures RowsAt(ReportFor(Records(es), |Keys(Records(es))|), at, es, p, hits)
  {
    hide Records, ReportFor, Section, Keys, Group, Shared, ProbedByTwo, PrintedByTwo, Pointers, Pointer, Hits, RowsAt,
      LaidOut, Printable, Complete, AllComplete, Positions, Nonempty, Reported;
    RecordsComplete(es);
    var logs, a := Records(es), Pointer(p);
    var n := |Keys(logs)|;
    ReportedIffProbedByTwo(es, p);
    KeyIsReported(logs, a);
    at := SectionPrinted(logs, n, a);
    hits := Positions(logs, a);
    GroupPrintable(es, a);
    HitsOfAddress(es, p);
    RowsOfSection(ReportFor(logs, n), at, Section(a, Group(logs, a)), es, p, hits);
  }

  lemma KeyIsReported(logs: seq<Log>, a: string)
    requires Wide(logs) && a in Keys(logs) && Shared(Nonempty(logs, a))
    ensures a in Reported(logs, |Keys(logs)|)
  {
    hide Shared, Nonempty, Keys;
    ReportedExact(logs, |Keys(logs)|, a);
  }

  lemma GroupPrintable(es: seq<ProbeLog.Entry>, a: string)
    requires Wide(Records(es)) && a in Keys(Records(es))
    ensures Printable(Group(Records(es), a))
  {
    var logs := Records(es);
    GroupMembers(logs, a);
    var g := Group(logs, a);
    forall k | 0 <= k < |g| ensures |g[k]| > 4 {
      assert g[k] in g;
    }
  }

  /** The rows are those of the records with this address. */
  lemma HitsOfAddress(es: seq<ProbeLog.Entry>, p: nat)
    requires Wide(Records(es)) && Pointers(es)
    ensures Hits(es, p, Positions(Records(es), Pointer(p)))
  {
    hide Group, Positions, AsPointer, Pointer;
    GroupIsSubsequence(Records(es), Pointer(p));
    forall k | 0 <= k < |es| ensures Records(es)[k][3] == Pointer(p) <==> es[k].action.record.addr == p {
      PointerInjective(AsPointer(es[k].action.record.addr), p);
    }
  }

  lemma RowsOfSection(out: seq<string>, at: nat, section: seq<string>, es: seq<ProbeLog.Entry>, p: nat, hits: seq<nat>)
    requires Wide(Records(es)) && hits == Positions(Records(es), Pointer(p)) && Hits(es, p, hits)
    requires LaidOut(section, Pointer(p), Group(Records(es), Pointer(p)))
    requires at + |section| <= |out| && out[at..at + |section|] == section
    ensures RowsAt(out, at, es, p, hits)
  {
    var group := Group(Records(es), Pointer(p));
    GroupIsSubsequence(Records(es), Pointer(p));
    hide Group, Positions, Pointer, Dashes, Records, ThreadRow;
    forall m | 0 <= m < |section| ensures out[at + m] == section[m] {
      assert out[at..at + |section|][m] == section[m];
    }
    forall m | 0 <= m < |hits| ensures out[at + 1 + m] == ThreadRow(es[hits[m]]) {
      assert out[at + (1 + m)] == section[1 + m];
      RowOfRecord(es, hits[m]);
    }
    assert out[at + (1 + |hits|)] == section[1 + |hits|];
  }

  lemma RowOfRecord(es: seq<ProbeLog.Entry>, k: nat)
    requires k < |es|
    ensures var log := Records(es)[k]; |log| > 4 && "TID: " + log[0] + " OP: " + log[4] == ThreadRow(es[k])
  {
    hide Pointer;
  }

  /** Every record the logger printed has its five fields, so the script never meets an IndexError. */
  lemma RecordsComplete(es: seq<ProbeLog.Entry>)
    ensures Wide(Records(es)) && AllComplete(Records(es), |Keys(Records(es))|)
  {
    var logs := Records(es);
    forall k | 0 <= k < |Keys(logs)| ensures Complete(logs, Keys(logs)[k]) {
      GroupComplete(logs, Keys(logs)[k]);
    }
  }

  lemma GroupComplete(logs: seq<Log>, a: string)
    requires Wide(logs) && a in Keys(logs) && forall k :: 0 <= k < |logs| ==> |logs[k]| > 4
    ensures Complete(logs, a)
  {
    GroupMembers(logs, a);
    var g := Nonempty(logs, a);
    forall k | 0 <= k < |g| ensures |g[k]| > 4 {
      assert g[k] in g;
    }
  }

  lemma ReportedIffProbedByTwo(es: seq<ProbeLog.Entry>, p: nat)
    requires Wide(Records(es))
    ensures Pointer(p) in Keys(Records(es)) && Shared(Nonempty(Records(es), Pointer(p)))
            <==> PrintedByTwo(es, p)
    ensures Pointers(es) ==>
              (Pointer(p) in Keys(Records(es)) && Shared(Nonempty(Records(es), Pointer(p))) <==> ProbedByTwo(es, p))
  {
    if Pointers(es) {
      PointersPrinted(es, p);
    }
    var logs, a := Records(es), Pointer(p);
    forall i | 0 <= i < |es|
      ensures logs[i][3] == a <==> AsPointer(es[i].action.record.addr) == p
    {
      PointerInjective(AsPointer(es[i].action.record.addr), p);
    }
    forall i, j | 0 <= i < |es| && 0 <= j < |es|
      ensures logs[i][0] == logs[j][0] <==> es[i].id == es[j].id
    {
      PointerInjective(es[i].id, es[j].id);
    }
    if a in Keys(logs) {
      SharedMeansTwoThreads(logs, a);
    }
    if i, j :| 0 <= i < |es| && 0 <= j < |es| && es[i].id != es[j].id
               && AsPointer(es[i].action.record.addr) == p && AsPointer(es[j].action.record.addr) == p {
      SeenIsKey(logs, i);
    }
  }
}
