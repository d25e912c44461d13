/**
  The date tag that namespaces the day's log files (pkg/logtime.go).

  `LogTime` renders the current local time in Go's `time.DateTime` layout
  ("2006-01-02 15:04:05"), passes the text through `fmt.Sprintf("%v", …)` and
  keeps its first ten characters. The clock read is not modelled: the model
  takes the rendered timestamp as its input, and separately describes how
  Go renders a civil date and time in a layout, so that the tag can be shown
  to be the calendar date in the `full-date` form of section 5.6 of RFC 3339.
 */
module LogTime {
  import opened Wrappers

  // ---------------------------------------------------------------------
  // The operation itself
  // ---------------------------------------------------------------------

  /** `fmt.Sprintf("%v", s)` for a string operand: the string itself. */
  function FormatV(s: string): string
  {
    s
  }

  /**
    pkg.LogTime, with the rendered clock reading as the parameter. Go panics
    when the slice bound 10 exceeds the length, so a shorter rendering is
    outside the contract.
   */
  function LogTime(rendered: string): (tag: string)
    requires |rendered| >= 10
    ensures |tag| == 10
    ensures tag <= rendered
  {
    FormatV(rendered)[..10]
  }

  /** Only the first ten characters matter: the time of day never does. */
  lemma SameDaySameTag(r1: string, r2: string)
    requires |r1| >= 10 && |r2| >= 10
    requires r1[..10] == r2[..10]
    ensures LogTime(r1) == LogTime(r2)
  {
  }

  // ---------------------------------------------------------------------
  // Civil dates and times, as Go's time.Time presents them
  // ---------------------------------------------------------------------

  datatype Date = Date(year: int, month: int, day: int)
  datatype Clock = Clock(hour: int, minute: int, second: int)
  datatype DateTime = DateTime(date: Date, clock: Clock)

  predicate IsLeapYear(y: int)
  {
    y % 4 == 0 && (y % 100 != 0 || y % 400 == 0)
  }

  function DaysInMonth(y: int, m: int): int
    requires 1 <= m <= 12
  {
    if m == 2 then (if IsLeapYear(y) then 29 else 28)
    else if m == 4 || m == 6 || m == 9 || m == 11 then 30
    else 31
  }

  /** A calendar date whose year has four decimal digits. */
  predicate ValidDate(d: Date)
  {
    0 <= d.year <= 9999 && 1 <= d.month <= 12 && 1 <= d.day <= DaysInMonth(d.year, d.month)
  }

  predicate ValidClock(c: Clock)
  {
    0 <= c.hour < 24 && 0 <= c.minute < 60 && 0 <= c.second < 60
  }

  predicate ValidDateTime(t: DateTime)
  {
    ValidDate(t.date) && ValidClock(t.clock)
  }

  // ---------------------------------------------------------------------
  // Decimal digits
  // ---------------------------------------------------------------------

  predicate IsDigit(c: char)
  {
    '0' <= c <= '9'
  }

  predicate AllDigits(s: string)
  {
    forall i :: 0 <= i < |s| ==> IsDigit(s[i])
  }

  function Digit(n: int): (c: char)
    requires 0 <= n < 10
    ensures IsDigit(c)
  {
    (48 + n) as char
  }

  function DigitValue(c: char): (n: int)
    requires IsDigit(c)
    ensures 0 <= n < 10
  {
    c as int - 48
  }

  /** Go's appendInt(b, n, 2): zero-padded to two digits. */
  function Pad2(n: int): (s: string)
    requires 0 <= n < 100
    ensures |s| == 2 && AllDigits(s)
  {
    [Digit(n / 10), Digit(n % 10)]
  }

  /** A four-digit year, zero-padded (years 0 to 9999). */
  function Pad4(n: int): (s: string)
    requires 0 <= n < 10000
    ensures |s| == 4 && AllDigits(s)
  {
    [Digit(n / 1000), Digit(n / 100 % 10), Digit(n / 10 % 10), Digit(n % 10)]
  }

  /** The number a string of decimal digits denotes. */
  function Value(s: string): nat
    requires AllDigits(s)
  {
    if s == [] then 0 else 10 * Value(s[..|s| - 1]) + DigitValue(s[|s| - 1]) as nat
  }

  lemma {:induction false} ValueOfPad2(n: int)
    requires 0 <= n < 100
    ensures Value(Pad2(n)) == n
  {
    var s := Pad2(n);
    assert s[..1][..0] == [];
    assert Value(s[..1]) == n / 10;
  }

  lemma {:induction false} ValueOfPad4(n: int)
    requires 0 <= n < 10000
    ensures Value(Pad4(n)) == n
  {
    var s := Pad4(n);
    assert s[..1][..0] == [];
    assert s[..2][..1] == s[..1];
    assert s[..3][..2] == s[..2];
    assert Value(s[..1]) == n / 1000;
    assert Value(s[..2]) == n / 100;
    assert Value(s[..3]) == n / 10;
  }

  lemma {:induction false} Pad2OfValue(s: string)
    requires |s| == 2 && AllDigits(s)
    ensures Value(s) < 100 && Pad2(Value(s)) == s
  {
    var a, b := DigitValue(s[0]), DigitValue(s[1]);
    assert s[..1][..0] == [] && s[..1][0] == s[0];
    assert Value(s[..1]) == a;
    assert Value(s) == 10 * a + b;
    assert (10 * a + b) / 10 == a;
    assert (10 * a + b) % 10 == b;
  }

  lemma {:induction false} Pad4OfValue(s: string)
    requires |s| == 4 && AllDigits(s)
    ensures Value(s) < 10000 && Pad4(Value(s)) == s
  {
    var a, b, c, d := DigitValue(s[0]), DigitValue(s[1]), DigitValue(s[2]), DigitValue(s[3]);
    assert s[..1][..0] == [] && s[..1][0] == s[0];
    assert s[..2][..1] == s[..1] && s[..2][1] == s[1];
    assert s[..3][..2] == s[..2] && s[..3][2] == s[2];
    assert Value(s[..1]) == a;
    assert Value(s[..2]) == 10 * a + b;
    assert Value(s[..3]) == 100 * a + 10 * b + c;
    var v := 1000 * a + 100 * b + 10 * c + d;
    assert Value(s) == v;
    assert v / 1000 == a;
    assert v / 100 == 10 * a + b;
    assert v / 100 % 10 == b;
    assert v / 10 == 100 * a + 10 * b + c;
    assert v / 10 % 10 == c;
    assert v % 10 == d;
  }

  // ---------------------------------------------------------------------
  // Go layouts
  // ---------------------------------------------------------------------

  /** The elements of a Go layout string that these layouts use. */
  datatype Chunk =
    | Lit(c: char)   // a literal character
    | LongYear       // "2006"
    | ZeroMonth      // "01"
    | ZeroDay        // "02"
    | Hour           // "15"
    | ZeroMinute     // "04"
    | ZeroSecond     // "05"

  /** time.DateOnly, "2006-01-02". */
  const DateOnlyLayout: seq<Chunk> := [LongYear, Lit('-'), ZeroMonth, Lit('-'), ZeroDay]

  /** time.TimeOnly, "15:04:05". */
  const TimeOnlyLayout: seq<Chunk> := [Hour, Lit(':'), ZeroMinute, Lit(':'), ZeroSecond]

  /** time.DateTime, "2006-01-02 15:04:05": the date, a space, the time. */
  const DateTimeLayout: seq<Chunk> := DateOnlyLayout + ([Lit(' ')] + TimeOnlyLayout)

  function ChunkWidth(c: Chunk): nat
  {
    match c
    case Lit(_) => 1
    case LongYear => 4
    case _ => 2
  }

  function Width(layout: seq<Chunk>): nat
  {
    if layout == [] then 0 else ChunkWidth(layout[0]) + Width(layout[1..])
  }

  function AppendChunk(c: Chunk, t: DateTime): (s: string)
    requires ValidDateTime(t)
    ensures |s| == ChunkWidth(c)
  {
    match c
    case Lit(ch) => [ch]
    case LongYear => Pad4(t.date.year)
    case ZeroMonth => Pad2(t.date.month)
    case ZeroDay => Pad2(t.date.day)
    case Hour => Pad2(t.clock.hour)
    case ZeroMinute => Pad2(t.clock.minute)
    case ZeroSecond => Pad2(t.clock.second)
  }

  /** time.Time.Format: each layout element rendered in turn. */
  function Format(layout: seq<Chunk>, t: DateTime): (s: string)
    requires ValidDateTime(t)
    ensures |s| == Width(layout)
  {
    if layout == [] then [] else AppendChunk(layout[0], t) + Format(layout[1..], t)
  }

  lemma {:induction false} FormatAppend(l1: seq<Chunk>, l2: seq<Chunk>, t: DateTime)
    requires ValidDateTime(t)
    ensures Format(l1 + l2, t) == Format(l1, t) + Format(l2, t)
  {
    if l1 == [] {
      assert l1 + l2 == l2;
    } else {
      assert (l1 + l2)[0] == l1[0];
      assert (l1 + l2)[1..] == l1[1..] + l2;
      FormatAppend(l1[1..], l2, t);
    }
  }

  // ---------------------------------------------------------------------
  // full-date of RFC 3339, section 5.6
  // ---------------------------------------------------------------------

  /**
    full-date = date-fullyear "-" date-month "-" date-mday, with four, two
    and two digits, the month 01-12 and the day within that month's length.
   */
  predicate IsFullDate(s: string)
  {
    && |s| == 10
    && AllDigits(s[0..4]) && s[4] == '-' && AllDigits(s[5..7]) && s[7] == '-' && AllDigits(s[8..10])
    && 1 <= Value(s[5..7]) <= 12
    && 1 <= Value(s[8..10]) <= DaysInMonth(Value(s[0..4]), Value(s[5..7]))
  }

  /** The full-date text of a date. */
  function FullDateText(d: Date): string
    requires ValidDate(d)
  {
    Pad4(d.year) + "-" + Pad2(d.month) + "-" + Pad2(d.day)
  }

  /** Reads a full-date; the result renders back to exactly the input. */
  function ParseFullDate(s: string): (r: Option<Date>)
    ensures r.Some? <==> IsFullDate(s)
    ensures r.Some? ==> ValidDate(r.value) && FullDateText(r.value) == s
  {
    if IsFullDate(s) then
      var d := Date(Value(s[0..4]), Value(s[5..7]), Value(s[8..10]));
      Pad4OfValue(s[0..4]);
      Pad2OfValue(s[5..7]);
      Pad2OfValue(s[8..10]);
      assert FullDateText(d) == s;
      Some(d)
    else
      None
  }

  /** Every valid date is written as a full-date that reads back as that date. */
  lemma {:induction false} FullDateRoundTrip(d: Date)
    requires ValidDate(d)
    ensures IsFullDate(FullDateText(d))
    ensures ParseFullDate(FullDateText(d)) == Some(d)
  {
    var s := FullDateText(d);
    assert s[0..4] == Pad4(d.year);
    assert s[5..7] == Pad2(d.month);
    assert s[8..10] == Pad2(d.day);
    ValueOfPad4(d.year);
    ValueOfPad2(d.month);
    ValueOfPad2(d.day);
  }

  /** Distinct dates have distinct full-date texts. */
  lemma FullDateTextInjective(d1: Date, d2: Date)
    requires ValidDate(d1) && ValidDate(d2)
    requires FullDateText(d1) == FullDateText(d2)
    ensures d1 == d2
  {
    FullDateRoundTrip(d1);
    FullDateRoundTrip(d2);
  }

  /** Go's DateOnly layout writes exactly the full-date of the date. */
  lemma DateOnlyIsFullDate(t: DateTime)
    requires ValidDateTime(t)
    ensures Format(DateOnlyLayout, t) == FullDateText(t.date)
  {
    var d := t.date;
    var l := DateOnlyLayout;
    assert Format(l[4..], t) == Pad2(d.day) by {
      assert l[4..][1..] == [];
    }
    assert Format(l[3..], t) == "-" + Pad2(d.day) by {
      assert l[3..][1..] == l[4..];
    }
    assert Format(l[2..], t) == Pad2(d.month) + "-" + Pad2(d.day) by {
      assert l[2..][1..] == l[3..];
    }
    assert Format(l[1..], t) == "-" + Pad2(d.month) + "-" + Pad2(d.day) by {
      assert l[1..][1..] == l[2..];
    }
  }

  /**
    The tag cut from a DateTime rendering is the DateOnly rendering of the
    same instant: the RFC 3339 full-date of its calendar date.
   */
  lemma DateTagIsFullDate(t: DateTime)
    requires ValidDateTime(t)
    ensures |Format(DateTimeLayout, t)| >= 10
    ensures LogTime(Format(DateTimeLayout, t)) == Format(DateOnlyLayout, t) == FullDateText(t.date)
    ensures ParseFullDate(LogTime(Format(DateTimeLayout, t))) == Some(t.date)
  {
    FormatAppend(DateOnlyLayout, [Lit(' ')] + TimeOnlyLayout, t);
    DateOnlyIsFullDate(t);
    FullDateRoundTrip(t.date);
  }

  /** The tag LogTime returns when the clock reads `now`: its calendar date. */
  function TagAt(now: DateTime): (tag: string)
    requires ValidDateTime(now)
    ensures |tag| == 10
    ensures tag == FullDateText(now.date)
  {
    DateTagIsFullDate(now);
    LogTime(Format(DateTimeLayout, now))
  }

  /** Two instants share a tag exactly when they fall on the same calendar day. */
  lemma TagIdentifiesDay(t1: DateTime, t2: DateTime)
    requires ValidDateTime(t1) && ValidDateTime(t2)
    ensures TagAt(t1) == TagAt(t2) <==> t1.date == t2.date
  {
    DateTagIsFullDate(t1);
    DateTagIsFullDate(t2);
    if FullDateText(t1.date) == FullDateText(t2.date) {
      FullDateTextInjective(t1.date, t2.date);
    }
  }
}
