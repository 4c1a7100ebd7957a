/** The text of the log: how the logger prints a record ("%p,%d,%s,%p,%s\n") and how the report
    script reads it back. */
module LogText {
  import opened TracerIR

  // ----- numbers as text

  predicate Free(s: string, c: char) { c !in s }

  function HexDigit(n: nat): (c: char)
    requires n < 16
    ensures c != ',' && c != '\n' && c != '\r'
  {
    "0123456789abcdef"[n]
  }

  function FromHexDigit(c: char): nat {
    if '0' <= c <= '9' then (c - '0') as nat else if 'a' <= c <= 'f' then 10 + (c - 'a') as nat else 0
  }

  function Hex(n: nat): (s: string)
    ensures s != ""
  {
    if n < 16 then [HexDigit(n)] else Hex(n / 16) + [HexDigit(n % 16)]
  }

  function FromHex(s: string): nat {
    if s == "" then 0 else 16 * FromHex(s[..|s| - 1]) + FromHexDigit(s[|s| - 1])
  }

  lemma DigitBack(n: nat)
    requires n < 16
    ensures FromHexDigit(HexDigit(n)) == n
  {
  }

  /** Hexadecimal text can be read back, so different numbers print differently. */
  lemma {:induction false} HexRoundTrip(n: nat)
    ensures FromHex(Hex(n)) == n
  {
    hide HexDigit, FromHexDigit;
    DigitBack(n % 16);
    if n >= 16 {
      HexRoundTrip(n / 16);
      assert Hex(n)[..|Hex(n)| - 1] == Hex(n / 16);
    } else {
      assert FromHex(Hex(n)[..0]) == 0;
    }
  }

  predicate Plain(s: string) { Free(s, ',') && Free(s, '\n') && Free(s, '\r') }

  lemma {:induction false} HexPlain(n: nat)
    ensures Plain(Hex(n))
  {
    if n >= 16 {
      HexPlain(n / 16);
    }
  }

  /** `%p`: glibc prints "(nil)" for the null pointer. */
  function Pointer(p: nat): string {
    if p == 0 then "(nil)" else "0x" + Hex(p)
  }

  function FromPointer(s: string): nat {
    if s == "(nil)" then 0 else FromHex(if |s| >= 2 then s[2..] else s)
  }

  /** The text of a pointer can be read back. */
  lemma PointerRoundTrip(p: nat)
    ensures FromPointer(Pointer(p)) == p
  {
    HexRoundTrip(p);
    if p != 0 {
      assert Pointer(p)[2..] == Hex(p) && Pointer(p)[0] == '0';
      assert "(nil)"[0] == '(';
    }
  }

  lemma PointerPlain(p: nat)
    ensures Plain(Pointer(p))
  {
    HexPlain(p);
  }

  lemma PointerInjective(p: nat, q: nat)
    ensures Pointer(p) == Pointer(q) <==> p == q
  {
    HexRoundTrip(p);
    HexRoundTrip(q);
    if Pointer(p) == Pointer(q) && p != 0 && q != 0 {
      assert Hex(p) == Pointer(p)[2..] && Hex(q) == Pointer(q)[2..];
    }
    assert "(nil)"[0] != "0x"[0];
  }

  function Digits(n: nat): string {
    if n < 10 then ["0123456789"[n]] else Digits(n / 10) + ["0123456789"[n % 10]]
  }

  lemma {:induction false} DigitsPlain(n: nat)
    ensures Plain(Digits(n))
  {
    if n >= 10 {
      DigitsPlain(n / 10);
    }
  }

  /** `%d`. */
  function Decimal(n: int): string {
    if n < 0 then "-" + Digits(-n) else Digits(n)
  }

  function FromDigits(s: string): int {
    if s == "" then 0 else 10 * FromDigits(s[..|s| - 1]) + (s[|s| - 1] as int - '0' as int)
  }

  function FromDecimal(s: string): int {
    if s != "" && s[0] == '-' then -FromDigits(s[1..]) else FromDigits(s)
  }

  lemma {:induction false} DigitsRoundTrip(n: nat)
    ensures FromDigits(Digits(n)) == n && Digits(n) != "" && Digits(n)[0] != '-'
  {
    if n >= 10 {
      DigitsRoundTrip(n / 10);
      assert Digits(n)[..|Digits(n)| - 1] == Digits(n / 10);
    } else {
      assert FromDigits(Digits(n)[..0]) == 0;
    }
  }

  /** Decimal text can be read back, negative numbers included. */
  lemma DecimalRoundTrip(n: int)
    ensures FromDecimal(Decimal(n)) == n
  {
    DigitsRoundTrip(if n < 0 then -n else n);
    if n < 0 {
      assert Decimal(n)[1..] == Digits(-n) && Decimal(n)[0] == '-';
    }
  }

  lemma DecimalPlain(n: int)
    ensures Plain(Decimal(n))
  {
    DigitsPlain(if n < 0 then -n else n);
  }

  // ----- one line

  /** A value passed as a 64-bit pointer. */
  function AsPointer(v: Value): (p: nat)
    ensures p < 0x1_0000_0000_0000_0000
    ensures 0 <= v < 0x1_0000_0000_0000_0000 ==> p == v
  {
    v % 0x1_0000_0000_0000_0000
  }

  /** A line number passed as a 32-bit int. */
  function AsInt32(n: int): (r: int)
    ensures -0x8000_0000 <= r < 0x8000_0000
    ensures -0x8000_0000 <= n < 0x8000_0000 ==> r == n
  {
    (n + 0x8000_0000) % 0x1_0000_0000 - 0x8000_0000
  }

  function Fields(tid: nat, r: Record): seq<string> {
    [Pointer(tid), Decimal(AsInt32(r.line)), r.func, Pointer(AsPointer(r.addr)), r.name]
  }

  /** What `_probe_` and `_probe_lock_` print. */
  function Line(tid: nat, r: Record): string {
    Pointer(tid) + "," + (Decimal(AsInt32(r.line)) + ","
        + (r.func + "," + (Pointer(AsPointer(r.addr)) + "," + (r.name + "\n"))))
  }

  // ----- reading it back

  /** Python's `s.split(c)` for a one-character separator. */
  function Split(s: string, c: char): (r: seq<string>)
    ensures r != []
  {
    if s == "" then [""]
    else if s[0] == c then [""] + Split(s[1..], c)
    else var r := Split(s[1..], c); [[s[0]] + r[0]] + r[1..]
  }

  lemma {:induction false} SplitField(x: string, y: string, c: char)
    requires Free(x, c)
    ensures Split(x + [c] + y, c) == [x] + Split(y, c)
  {
    if x == "" {
      assert x + [c] + y == [c] + y && ([c] + y)[1..] == y;
    } else {
      assert (x + [c] + y)[1..] == x[1..] + [c] + y && (x + [c] + y)[0] == x[0];
      SplitField(x[1..], y, c);
      var r := Split(x[1..] + [c] + y, c);
      assert r[0] == x[1..] && r[1..] == Split(y, c) && [x[0]] + x[1..] == x;
    }
  }

  lemma {:induction false} SplitLast(x: string, c: char)
    requires Free(x, c)
    ensures Split(x, c) == [x]
  {
    if x != "" {
      SplitLast(x[1..], c);
      assert [x[0]] + x[1..] == x;
    }
  }

  function Count(s: string, c: char): nat {
    if s == "" then 0 else (if s[0] == c then 1 else 0) + Count(s[1..], c)
  }

  lemma {:induction false} SplitLength(s: string, c: char)
    ensures |Split(s, c)| == 1 + Count(s, c)
  {
    if s != "" {
      SplitLength(s[1..], c);
    }
  }

  lemma {:induction false} CountAppend(x: string, y: string, c: char)
    ensures Count(x + y, c) == Count(x, c) + Count(y, c)
  {
    if x == "" {
      assert x + y == y;
    } else {
      assert (x + y)[1..] == x[1..] + y && (x + y)[0] == x[0];
      CountAppend(x[1..], y, c);
    }
  }

  lemma {:induction false} CountZero(s: string, c: char)
    ensures Count(s, c) == 0 <==> Free(s, c)
  {
    if s != "" {
      CountZero(s[1..], c);
      assert s == [s[0]] + s[1..];
    }
  }

  /** The five fields as the script sees them; the last one keeps the newline. */
  function ReadFields(tid: nat, r: Record): seq<string> {
    Fields(tid, r)[4 := r.name + "\n"]
  }

  /** The part of the line after the two leading fields, and after the function name. */
  function AfterLine(r: Record): string { r.func + "," + AfterFunc(r) }
  function AfterFunc(r: Record): string { Pointer(AsPointer(r.addr)) + "," + (r.name + "\n") }

  lemma SplitFront(tid: nat, r: Record)
    ensures Split(Line(tid, r), ',') == [Pointer(tid), Decimal(AsInt32(r.line))] + Split(AfterLine(r), ',')
    ensures Split(AfterFunc(r), ',') == [Pointer(AsPointer(r.addr))] + Split(r.name + "\n", ',')
  {
    var a, b, d := Pointer(tid), Decimal(AsInt32(r.line)), Pointer(AsPointer(r.addr));
    PointerPlain(tid);
    DecimalPlain(AsInt32(r.line));
    PointerPlain(AsPointer(r.addr));
    SplitField(a, b + "," + AfterLine(r), ',');
    SplitField(b, AfterLine(r), ',');
    SplitField(d, r.name + "\n", ',');
    assert Line(tid, r) == a + "," + (b + "," + AfterLine(r));
  }

  lemma CommaFreeSplit(tid: nat, r: Record)
    requires Free(r.func, ',') && Free(r.name, ',')
    ensures Split(Line(tid, r), ',') == ReadFields(tid, r)
  {
    SplitFront(tid, r);
    SplitField(r.func, AfterFunc(r), ',');
    SplitLast(r.name + "\n", ',');
  }

  lemma TooManyFields(tid: nat, r: Record)
    requires !Free(r.func, ',') || !Free(r.name, ',')
    ensures |Split(Line(tid, r), ',')| > 5
  {
    SplitFront(tid, r);
    SplitLength(AfterLine(r), ',');
    SplitLength(AfterFunc(r), ',');
    SplitLength(r.name + "\n", ',');
    CountAppend(r.name, "\n", ',');
    CountAppend(r.func, "," + AfterFunc(r), ',');
    CountAppend(",", AfterFunc(r), ',');
    CountZero(r.func, ',');
    CountZero(r.name, ',');
    assert AfterLine(r) == r.func + ("," + AfterFunc(r)) && Count(",", ',') == 1;
  }

  /** The script recovers the fields of a line by splitting at commas exactly if neither the function
      name nor the operation name contains one. */
  lemma SplitRecoversFields(tid: nat, r: Record)
    ensures Split(Line(tid, r), ',') == ReadFields(tid, r) <==> Free(r.func, ',') && Free(r.name, ',')
  {
    if Free(r.func, ',') && Free(r.name, ',') {
      CommaFreeSplit(tid, r);
    } else {
      TooManyFields(tid, r);
    }
  }

  /** A record as the C code gets it: a 64-bit address, a line number that fits an int, and names without
      commas. */
  predicate Fits(r: Record) {
    0 <= r.addr < 0x1_0000_0000_0000_0000 && r.line < 0x8000_0000 && Free(r.func, ',') && Free(r.name, ',')
  }

  /** The fields of a line say which thread logged which record. */
  predicate Says(fields: seq<string>, tid: nat, r: Record) {
    && |fields| == 5
    && FromPointer(fields[0]) == tid && FromDecimal(fields[1]) == r.line && fields[2] == r.func
    && FromPointer(fields[3]) == r.addr && fields[4] == r.name + "\n"
  }

  /** From the line of a record everything in it can be read back. */
  lemma LineReadsBack(tid: nat, r: Record)
    requires Fits(r)
    ensures Says(Split(Line(tid, r), ','), tid, r)
  {
    hide Pointer, Decimal, FromPointer, FromDecimal, Split, Line;
    CommaFreeSplit(tid, r);
    PointerRoundTrip(tid);
    DecimalRoundTrip(AsInt32(r.line));
    PointerRoundTrip(AsPointer(r.addr));
  }

  /** Text-mode reading turns every line ending into a newline. */
  function Universal(s: string): string {
    if s == "" then ""
    else if s[0] == '\r' then
      if |s| > 1 && s[1] == '\n' then ['\n'] + Universal(s[2..]) else ['\n'] + Universal(s[1..])
    else [s[0]] + Universal(s[1..])
  }

  lemma {:induction false} UniversalPlain(s: string)
    requires Free(s, '\r')
    ensures Universal(s) == s
  {
    if s != "" {
      UniversalPlain(s[1..]);
      assert s == [s[0]] + s[1..];
    }
  }

  /** Each of the three line endings becomes one newline, and the rest stays. */
  lemma {:induction false} UniversalEnds(x: string, y: string)
    requires Free(x, '\r')
    ensures Universal(x + "\r\n" + y) == x + "\n" + Universal(y)
    ensures y == "" || y[0] != '\n' ==> Universal(x + "\r" + y) == x + "\n" + Universal(y)
    ensures Universal(x + "\n" + y) == x + "\n" + Universal(y)
  {
    if x == "" {
      assert x + "\r\n" + y == "\r\n" + y && ("\r\n" + y)[2..] == y;
      assert x + "\r" + y == "\r" + y && ("\r" + y)[1..] == y;
      assert x + "\n" + y == "\n" + y && ("\n" + y)[1..] == y;
    } else {
      assert (x + "\r\n" + y)[1..] == x[1..] + "\r\n" + y;
      assert (x + "\r" + y)[1..] == x[1..] + "\r" + y;
      assert (x + "\n" + y)[1..] == x[1..] + "\n" + y;
      UniversalEnds(x[1..], y);
      assert x == [x[0]] + x[1..];
    }
  }

  /** Iterating over a file: its lines, each with its newline. */
  function LinesOf(s: string): seq<string> {
    if s == "" then []
    else
      var r := LinesOf(s[1..]);
      if s[0] == '\n' || r == [] then [[s[0]]] + r else [[s[0]] + r[0]] + r[1..]
  }

  /** The lines together are the file; each but the last ends with its only newline. */
  lemma {:induction false} LinesExact(s: string)
    ensures Flatten(LinesOf(s)) == s
    ensures forall k :: 0 <= k < |LinesOf(s)| ==> IsLine(LinesOf(s)[k], k == |LinesOf(s)| - 1)
  {
    if s != "" {
      LinesExact(s[1..]);
      var r := LinesOf(s[1..]);
      assert s == [s[0]] + s[1..];
      if s[0] == '\n' || r == [] {
        assert LinesOf(s)[1..] == r;
      } else {
        assert LinesOf(s)[1..] == r[1..] && IsLine(r[0], |r| == 1);
        assert [s[0]] + (r[0] + Flatten(r[1..])) == [s[0]] + r[0] + Flatten(r[1..]);
      }
    }
  }

  predicate IsLine(line: string, last: bool) {
    && line != "" && Free(line[..|line| - 1], '\n')
    && (!last ==> line[|line| - 1] == '\n')
  }

  lemma {:induction false} LinesStep(x: string, y: string)
    requires Free(x, '\n')
    ensures LinesOf(x + "\n" + y) == [x + "\n"] + LinesOf(y)
  {
    if x == "" {
      assert x + "\n" + y == "\n" + y && ("\n" + y)[1..] == y;
    } else {
      assert (x + "\n" + y)[1..] == x[1..] + "\n" + y && (x + "\n" + y)[0] == x[0];
      LinesStep(x[1..], y);
      assert [x[0]] + (x[1..] + "\n") == x + "\n";
    }
  }

  function Flatten(ss: seq<string>): string {
    if ss == [] then "" else ss[0] + Flatten(ss[1..])
  }

  /** A log of whole lines is read back line by line. */
  lemma {:induction false} LinesRoundTrip(bodies: seq<string>)
    requires forall k :: 0 <= k < |bodies| ==> Free(bodies[k], '\n')
    ensures LinesOf(Flatten(WithNewlines(bodies))) == WithNewlines(bodies)
  {
    if bodies != [] {
      LinesRoundTrip(bodies[1..]);
      assert WithNewlines(bodies)[1..] == WithNewlines(bodies[1..]);
      LinesStep(bodies[0], Flatten(WithNewlines(bodies[1..])));
    }
  }

  function WithNewlines(bodies: seq<string>): (r: seq<string>)
    ensures |r| == |bodies|
  {
    seq(|bodies|, k requires 0 <= k < |bodies| => bodies[k] + "\n")
  }
}
