/** The report script atom.py: group the records by address, and print the groups that more than one
    thread has a record in. */
module AtomReport {
  import opened Common
  import opened LogText

  type Log = seq<string>

  /** Every record has the address field. */
  predicate Wide(logs: seq<Log>) { forall k :: 0 <= k < |logs| ==> |logs[k]| > 3 }

  /** The records with address a, in order. */
  function Group(logs: seq<Log>, a: string): seq<Log>
    requires Wide(logs)
  {
    if logs == [] then []
    else
      var n := |logs| - 1;
      Group(logs[..n], a) + (if logs[n][3] == a then [logs[n]] else [])
  }

  /** The addresses, each where it is first seen. */
  function Keys(logs: seq<Log>): seq<string>
    requires Wide(logs)
  {
    if logs == [] then []
    else
      var n := |logs| - 1;
      var front := Keys(logs[..n]);
      if logs[n][3] in front then front else front + [logs[n][3]]
  }

  /** More than one thread has a record in the group. */
  predicate Shared(group: seq<Log>)
    requires group != [] && forall k :: 0 <= k < |group| ==> |group[k]| > 0
  {
    exists k :: 0 <= k < |group| && group[k][0] != group[0][0]
  }

  /** The line printed for one record, and whether its fields 0 and 4 are there to print. */
  function Row(g: Log): string {
    if |g| > 4 then "TID: " + g[0] + " OP: " + g[4] else ""
  }

  predicate Printable(group: seq<Log>) { forall k :: 0 <= k < |group| ==> |group[k]| > 4 }

  /** The line of dashes between two addresses. */
  const WIDTH: nat := 55

  function Rule(n: nat): string {
    if n == 0 then "" else "-" + Rule(n - 1)
  }

  function Header(a: string): string {
    "address: [" + a + "]"
  }

  /** What is printed for one address. */
  function Section(a: string, group: seq<Log>): seq<string> {
    [Header(a)]
    + seq(|group|, k requires 0 <= k < |group| => Row(group[k]))
    + [Rule(WIDTH)]
  }

  predicate Dashes(s: string) { |s| == 55 && forall k :: 0 <= k < |s| ==> s[k] == '-' }

  /** The lines announce a, then have one row for every record of the group, in order, with its thread and
      its operation, and end with dashes. */
  predicate LaidOut(lines: seq<string>, a: string, group: seq<Log>) {
    && |lines| == |group| + 2
    && lines[0] == "address: [" + a + "]"
    && (forall k :: 0 <= k < |group| ==>
          |group[k]| > 4 && lines[1 + k] == "TID: " + group[k][0] + " OP: " + group[k][4])
    && Dashes(lines[1 + |group|])
  }

  lemma {:induction false} RuleIsDashes(n: nat)
    ensures |Rule(n)| == n && forall k :: 0 <= k < n ==> Rule(n)[k] == '-'
  {
    if n > 0 {
      RuleIsDashes(n - 1);
    }
  }

  lemma SectionLaidOut(a: string, group: seq<Log>)
    requires Printable(group)
    ensures LaidOut(Section(a, group), a, group)
  {
    RuleIsDashes(WIDTH);
    hide Rule;
  }

  lemma {:induction false} GroupMembers(logs: seq<Log>, a: string)
    requires Wide(logs)
    ensures forall g :: g in Group(logs, a) <==> g in logs && |g| > 3 && g[3] == a
    ensures Group(logs, a) != [] <==> a in Keys(logs)
  {
    if logs != [] {
      var front, log := logs[..|logs| - 1], logs[|logs| - 1];
      GroupMembers(front, a);
      assert logs == front + [log];
      assert Group(logs, a) == Group(front, a) + (if log[3] == a then [log] else []);
      assert Keys(logs) == if log[3] in Keys(front) then Keys(front) else Keys(front) + [log[3]];
    }
  }

  lemma Snoc(logs: seq<Log>, log: Log)
    requires Wide(logs) && |log| > 3
    ensures Wide(logs + [log])
    ensures Keys(logs + [log]) == if log[3] in Keys(logs) then Keys(logs) else Keys(logs) + [log[3]]
    ensures forall a :: Group(logs + [log], a) == Group(logs, a) + (if log[3] == a then [log] else [])
  {
    assert (logs + [log])[..|logs|] == logs;
  }

  /** What is printed for the first n addresses. */
  function ReportFor(logs: seq<Log>, n: nat): seq<string>
    requires Wide(logs) && n <= |Keys(logs)|
  {
    if n == 0 then [] else ReportFor(logs, n - 1) + IfShared(logs, Keys(logs)[n - 1])
  }

  function IfShared(logs: seq<Log>, a: string): seq<string>
    requires Wide(logs) && a in Keys(logs)
  {
    if Shared(Nonempty(logs, a)) then Section(a, Nonempty(logs, a)) else []
  }

  /** Every record that would be printed for a has its five fields. */
  predicate Complete(logs: seq<Log>, a: string)
    requires Wide(logs) && a in Keys(logs)
  {
    Shared(Nonempty(logs, a)) ==> Printable(Nonempty(logs, a))
  }

  /** The records of a text, as the loop over the lines sees them. */
  function Logs(lines: seq<string>): (r: seq<Log>)
    ensures |r| == |lines|
  {
    seq(|lines|, k requires 0 <= k < |lines| => Split(lines[k], ','))
  }

  predicate AllComplete(logs: seq<Log>, n: nat)
    requires Wide(logs) && n <= |Keys(logs)|
  {
    forall k :: 0 <= k < n ==> Complete(logs, Keys(logs)[k])
  }

  lemma Incomplete(logs: seq<Log>, n: nat)
    requires Wide(logs) && n < |Keys(logs)| && !Complete(logs, Keys(logs)[n])
    ensures !AllComplete(logs, |Keys(logs)|)
  {
  }

  lemma OneMore(logs: seq<Log>, n: nat)
    requires Wide(logs) && n < |Keys(logs)| && Complete(logs, Keys(logs)[n]) && AllComplete(logs, n)
    ensures AllComplete(logs, n + 1)
  {
  }

  lemma NotWide(logs: seq<Log>, n: nat)
    requires n < |logs| && |logs[n]| <= 3
    ensures !Wide(logs)
  {
  }

  class Report {
    var keys: seq<string>
    var dic: map<string, seq<Log>>

    /** The dictionary holds exactly the groups of the records so far, in first-seen order. */
    ghost predicate Valid(logs: seq<Log>)
      reads this
    {
      && Wide(logs)
      && keys == Keys(logs)
      && (forall a :: a in dic <==> a in keys)
      && forall a :: a in dic ==> dic[a] == Group(logs, a)
    }

    constructor ()
      ensures Valid([]) && keys == [] && dic == map[]
    {
      keys, dic := [], map[];
    }

    /** One round of the grouping loop; false stands for an IndexError. */
    method AddLine(line: string, ghost logs: seq<Log>) returns (ok: bool)
      requires Valid(logs)
      modifies this
      ensures ok <==> |Split(line, ',')| > 3
      ensures ok ==> Valid(logs + [Split(line, ',')])
      ensures !ok ==> unchanged(this)
    {
      var log := Split(line, ',');
      ok := |log| > 3;
      if ok {
        AddRecord(log, logs);
      }
    }

    method AddRecord(log: Log, ghost logs: seq<Log>)
      requires Valid(logs) && |log| > 3
      modifies this
      ensures Valid(logs + [log])
    {
      var addr := log[3];
      Snoc(logs, log);
      GroupMembers(logs, addr);
      if addr in dic {
        dic := dic[addr := dic[addr] + [log]];
      } else {
        dic := dic[addr := [log]];
        keys := keys + [addr];
      }
    }

    /** The grouping loop over the whole file. */
    method ReadAll(text: string) returns (ok: bool)
      requires Valid([])
      modifies this
      ensures ok <==> Wide(Logs(LinesOf(Universal(text))))
      ensures ok ==> Valid(Logs(LinesOf(Universal(text))))
    {
      var lines := LinesOf(Universal(text));
      ghost var all := Logs(lines);
      for n := 0 to |lines|
        invariant Valid(all[..n])
      {
        ok := AddLine(lines[n], all[..n]);
        if !ok {
          NotWide(all, n);
          return;
        }
        assert all[..n] + [all[n]] == all[..n + 1];
      }
      assert all[..|lines|] == all;
      ok := true;
    }

    /** The two-thread check. */
    method SeenByTwo(arr: seq<Log>) returns (pr: bool)
      requires arr != [] && forall k :: 0 <= k < |arr| ==> |arr[k]| > 0
      ensures pr <==> Shared(arr)
    {
      var first_thread := arr[0][0];
      pr := false;
      for n := 0 to |arr|
        invariant pr <==> exists k :: 0 <= k < n && arr[k][0] != first_thread
      {
        if arr[n][0] != first_thread {
          pr := true;
        }
      }
    }

    /** The lines printed for one address; false stands for an IndexError. */
    method PrintSection(key: string, arr: seq<Log>) returns (ok: bool, section: seq<string>)
      ensures ok <==> Printable(arr)
      ensures ok ==> section == Section(key, arr) && LaidOut(section, key, arr)
    {
      section := ["address: [" + key + "]"];
      for m := 0 to |arr|
        invariant Printable(arr[..m])
        invariant section == ["address: [" + key + "]"] + seq(m, k requires 0 <= k < m => Row(arr[k]))
      {
        if |arr[m]| <= 4 {
          return false, section;
        }
        section := section + ["TID: " + arr[m][0] + " OP: " + arr[m][4]];
        assert arr[..m + 1] == arr[..m] + [arr[m]];
      }
      section := section + [Rule(WIDTH)];
      assert arr[..|arr|] == arr;
      ok := true;
      SectionLaidOut(key, arr);
    }

    /** One round of the report loop. */
    method PrintKey(key: string, ghost logs: seq<Log>) returns (ok: bool, out: seq<string>)
      requires Valid(logs) && key in keys
      ensures ok <==> Complete(logs, key)
      ensures ok ==> out == IfShared(logs, key)
    {
      var arr := dic[key];
      assert arr == Nonempty(logs, key);
      var pr := SeenByTwo(arr);
      if pr {
        ok, out := PrintSection(key, arr);
      } else {
        ok, out := true, [];
      }
    }

    /** The report loop: the shared groups, in the order of the keys.  It fails exactly if a shared
        group has a record of less than five fields. */
    method PrintAll(ghost logs: seq<Log>) returns (ok: bool, out: seq<string>)
      requires Valid(logs)
      ensures ok <==> AllComplete(logs, |Keys(logs)|)
      ensures ok ==> out == ReportFor(logs, |Keys(logs)|)
    {
      out := [];
      for n := 0 to |keys|
        invariant AllComplete(logs, n)
        invariant out == ReportFor(logs, n)
      {
        var section;
        ok, section := PrintKey(keys[n], logs);
        if !ok {
          Incomplete(logs, n);
          return;
        }
        out := out + section;
        OneMore(logs, n);
      }
      ok := true;
    }
  }

  /** The whole script: read the log and print the report.  It runs through exactly if every line has
      its address field and every record that is to be printed has its five fields. */
  method Script(text: string) returns (ok: bool, out: seq<string>)
    ensures var logs := Logs(LinesOf(Universal(text)));
            && (ok <==> Wide(logs) && AllComplete(logs, |Keys(logs)|))
            && (ok ==> out == ReportFor(logs, |Keys(logs)|))
  {
    var report := new Report();
    ok := report.ReadAll(text);
    out := [];
    if ok {
      ok, out := report.PrintAll(Logs(LinesOf(Universal(text))));
    }
  }

  // ----- what the report says

  /** The addresses that are reported among the first n. */
  function Reported(logs: seq<Log>, n: nat): seq<string>
    requires Wide(logs) && n <= |Keys(logs)|
  {
    if n == 0 then []
    else Reported(logs, n - 1) + (if Shared(Nonempty(logs, Keys(logs)[n - 1])) then [Keys(logs)[n - 1]] else [])
  }

  lemma {:induction false} ReportedExact(logs: seq<Log>, n: nat, a: string)
    requires Wide(logs) && n <= |Keys(logs)|
    ensures a in Reported(logs, n) <==> exists k :: 0 <= k < n && Keys(logs)[k] == a && Shared(Nonempty(logs, a))
  {
    if n > 0 {
      ReportedExact(logs, n - 1, a);
    }
  }

  /** The lines that announce an address. */
  predicate IsHeader(line: string) { line != "" && line[0] == 'a' }

  function Headers(lines: seq<string>): seq<string> {
    if lines == [] then [] else (if IsHeader(lines[0]) then [lines[0]] else []) + Headers(lines[1..])
  }

  lemma {:induction false} HeadersAppend(xs: seq<string>, ys: seq<string>)
    ensures Headers(xs + ys) == Headers(xs) + Headers(ys)
  {
    hide IsHeader;
    if xs == [] {
      assert xs + ys == ys;
    } else {
      assert (xs + ys)[1..] == xs[1..] + ys && (xs + ys)[0] == xs[0];
      HeadersAppend(xs[1..], ys);
      Associate(if IsHeader(xs[0]) then [xs[0]] else [], Headers(xs[1..]), Headers(ys));
    }
  }

  lemma {:induction false} NoHeaders(lines: seq<string>)
    requires forall k :: 0 <= k < |lines| ==> !IsHeader(lines[k])
    ensures Headers(lines) == []
  {
    if lines != [] {
      NoHeaders(lines[1..]);
    }
  }

  /** A section announces its own address and no other. */
  lemma SectionHeaders(a: string, group: seq<Log>)
    ensures Headers(Section(a, group)) == [Header(a)]
  {
    var rows := seq(|group|, k requires 0 <= k < |group| => Row(group[k]));
    assert forall k :: 0 <= k < |rows| ==> !IsHeader(rows[k]);
    NoHeaders(rows);
    assert Rule(WIDTH) == "-" + Rule(WIDTH - 1);
    NoHeaders([Rule(WIDTH)]);
    assert Header(a)[0] == "address: ["[0] == 'a' && [Header(a)][1..] == [];
    HeadersAppend([Header(a)] + rows, [Rule(WIDTH)]);
    HeadersAppend([Header(a)], rows);
  }

  function HeaderLines(keys: seq<string>): (r: seq<string>)
    ensures |r| == |keys|
  {
    seq(|keys|, k requires 0 <= k < |keys| => Header(keys[k]))
  }

  lemma HeaderLinesSnoc(keys: seq<string>, a: string)
    ensures HeaderLines(keys + [a]) == HeaderLines(keys) + [Header(a)]
    ensures HeaderLines(keys) + [] == HeaderLines(keys) && keys + [] == keys
  {
    hide Header;
  }

  /** The report announces exactly the reported addresses, in the order of the keys. */
  lemma {:induction false} ReportHeaders(logs: seq<Log>, n: nat)
    requires Wide(logs) && n <= |Keys(logs)|
    ensures Headers(ReportFor(logs, n)) == HeaderLines(Reported(logs, n))
  {
    hide Wide, Keys, Nonempty, Shared, Section, Header, HeaderLines;
    if n > 0 {
      var a := Keys(logs)[n - 1];
      ReportHeaders(logs, n - 1);
      HeadersAppend(ReportFor(logs, n - 1), IfShared(logs, a));
      SectionHeaders(a, Nonempty(logs, a));
      HeaderLinesSnoc(Reported(logs, n - 1), a);
    } else {
      assert HeaderLines([]) == [];
    }
  }

  lemma {:induction false} HeaderMember(lines: seq<string>, line: string)
    requires IsHeader(line)
    ensures line in Headers(lines) <==> line in lines
  {
    if lines != [] {
      HeaderMember(lines[1..], line);
      assert lines == [lines[0]] + lines[1..];
    }
  }

  lemma HeaderInjective(a: string, b: string)
    ensures Header(a) == Header(b) <==> a == b
  {
    var n := |"address: ["|;
    assert Header(a)[n..|Header(a)| - 1] == a && Header(b)[n..|Header(b)| - 1] == b;
  }

  /** An address is announced in the report exactly if its group is shared. */
  lemma AnnouncedExact(logs: seq<Log>, a: string)
    requires Wide(logs)
    ensures Header(a) in ReportFor(logs, |Keys(logs)|) <==> a in Keys(logs) && Shared(Nonempty(logs, a))
  {
    var n := |Keys(logs)|;
    assert Header(a)[0] == "address: ["[0];
    HeaderMember(ReportFor(logs, n), Header(a));
    ReportHeaders(logs, n);
    ReportedExact(logs, n, a);
    var keys := Reported(logs, n);
    forall k | 0 <= k < |keys| ensures HeaderLines(keys)[k] == Header(a) <==> keys[k] == a {
      HeaderInjective(keys[k], a);
    }
  }

  lemma {:induction false} SectionInReport(logs: seq<Log>, n: nat, a: string) returns (i: nat)
    requires Wide(logs) && n <= |Keys(logs)| && a in Reported(logs, n) && a in Keys(logs)
    ensures var section := Section(a, Group(logs, a));
            i + |section| <= |ReportFor(logs, n)| && ReportFor(logs, n)[i..i + |section|] == section
  {
    hide Wide, Keys, Shared, Section, Group;
    var front, key := ReportFor(logs, n - 1), Keys(logs)[n - 1];
    assert ReportFor(logs, n) == front + IfShared(logs, key);
    if key == a && Shared(Nonempty(logs, a)) {
      i := |front|;
    } else {
      i := SectionInReport(logs, n - 1, a);
      SliceOfFront(front, IfShared(logs, key), i, i + |Section(a, Group(logs, a))|);
    }
  }

  /** And its section, with one row for every record of the group in order, is in the report in one
      piece. */
  lemma SectionPrinted(logs: seq<Log>, n: nat, a: string) returns (i: nat)
    requires Wide(logs) && n <= |Keys(logs)| && a in Reported(logs, n) && a in Keys(logs)
    ensures var section, out := Section(a, Group(logs, a)), ReportFor(logs, n);
            && i + |section| <= |out| && out[i..i + |section|] == section
            && (Printable(Group(logs, a)) ==> LaidOut(out[i..i + |section|], a, Group(logs, a)))
  {
    hide Wide, Keys, Shared, Section, Group, ReportFor, Reported, Printable, LaidOut;
    i := SectionInReport(logs, n, a);
    if Printable(Group(logs, a)) {
      SectionLaidOut(a, Group(logs, a));
    }
  }

  lemma SliceOfFront<T>(xs: seq<T>, ys: seq<T>, i: nat, j: nat)
    requires i <= j <= |xs|
    ensures (xs + ys)[i..j] == xs[i..j]
  {
  }

  /** The group of an address that was seen. */
  function Nonempty(logs: seq<Log>, a: string): (g: seq<Log>)
    requires Wide(logs) && a in Keys(logs)
    ensures g == Group(logs, a) && g != [] && forall k :: 0 <= k < |g| ==> |g[k]| > 3
  {
    GroupMembers(logs, a);
    assert forall k :: 0 <= k < |Group(logs, a)| ==> Group(logs, a)[k] in Group(logs, a);
    Group(logs, a)
  }
}
