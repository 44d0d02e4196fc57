/** The text form of event ids and of the scheduler's synthetic run ids, and their inverses. */
module EventId {
  import opened Types

  const MARK := ".attr"
  const MAINTENANCE := "maintenance:"

  predicate IsDigit(c: char) {
    '0' <= c <= '9'
  }

  function DigitChar(d: nat): (c: char)
    requires d < 10
    ensures IsDigit(c)
  {
    '0' + d as char
  }

  function Digits(n: nat): string {
    if n < 10 then [DigitChar(n)] else Digits(n / 10) + [DigitChar(n % 10)]
  }

  /** `{:03}` */
  function Padded(n: nat): string {
    var d := Digits(n);
    if |d| == 1 then "00" + d else if |d| == 2 then "0" + d else d
  }

  function FormatEventId(runId: string, seqNo: nat): string {
    runId + MARK + Padded(seqNo)
  }

  // ------------------------------------------------------------------------
  // Days
  // ------------------------------------------------------------------------

  datatype Date = Date(year: int, month: nat, day: nat)

  predicate IsLeap(year: int) {
    year % 4 == 0 && (year % 100 != 0 || year % 400 == 0)
  }

  /** Months are counted from January of the year 0 of the proleptic Gregorian calendar. */
  function MonthLength(k: int): (n: nat)
    ensures 28 <= n <= 31
  {
    var month := k % 12 + 1;
    if month == 2 then (if IsLeap(k / 12) then 29 else 28)
    else if month == 4 || month == 6 || month == 9 || month == 11 then 30 else 31
  }

  /** The date `n` days after the first of month `k`. */
  function DateFrom(k: int, n: int): (date: Date)
    ensures 1 <= date.month <= 12 && 1 <= date.day <= 31
    decreases n < 0, if n < 0 then -n else n
  {
    if n < 0 then DateFrom(k - 1, n + MonthLength(k - 1))
    else if n >= MonthLength(k) then DateFrom(k + 1, n - MonthLength(k))
    else Date(k / 12, k % 12 + 1, n + 1)
  }

  const EPOCH_MONTH := 1970 * 12

  function DateOf(day: int): Date {
    DateFrom(EPOCH_MONTH, day)
  }

  function TwoDigits(n: nat): string
    requires n < 100
  {
    [DigitChar(n / 10), DigitChar(n % 10)]
  }

  /** `{:04}` */
  function FourDigits(n: nat): string {
    var digits := Digits(n);
    if |digits| < 4 then Zeros(4 - |digits|) + digits else digits
  }

  /** At least four digits, and a sign outside the years 0 to 9999. */
  function YearText(year: int): string {
    if year < 0 then "-" + FourDigits(-year) else if year > 9999 then "+" + FourDigits(year) else FourDigits(year)
  }

  function Zeros(n: nat): string {
    if n == 0 then "" else "0" + Zeros(n - 1)
  }

  /** `%Y-%m-%d` */
  function DateText(date: Date): string
    requires date.month < 100 && date.day < 100
  {
    YearText(date.year) + "-" + TwoDigits(date.month) + "-" + TwoDigits(date.day)
  }

  /** The synthetic run of a day. */
  function MaintenanceRunId(day: int): string {
    MAINTENANCE + DateText(DateOf(day))
  }

  predicate IsMaintenance(runId: string) {
    MAINTENANCE <= runId
  }

  // ------------------------------------------------------------------------
  // Reading ids back
  // ------------------------------------------------------------------------

  function Value(s: string): int {
    if s == [] then 0 else Value(s[..|s| - 1]) * 10 + (s[|s| - 1] as int - '0' as int)
  }

  /** How many characters at the end of `s` are digits. */
  function TrailingDigits(s: string): (n: nat)
    ensures n <= |s|
  {
    if s == [] || !IsDigit(s[|s| - 1]) then 0 else 1 + TrailingDigits(s[..|s| - 1])
  }

  function ParseEventId(id: string): Option<(string, int)> {
    var cut := |id| - TrailingDigits(id);
    if cut >= |MARK| && id[cut - |MARK|..cut] == MARK
    then Some((id[..cut - |MARK|], Value(id[cut..]))) else None
  }

  predicate AllDigits(s: string) {
    forall c | c in s :: IsDigit(c)
  }

  lemma {:induction false} DigitsValue(n: nat)
    ensures AllDigits(Digits(n)) && Digits(n) != [] && Value(Digits(n)) == n
  {
    if n >= 10 {
      DigitsValue(n / 10);
      assert Digits(n)[..|Digits(n)| - 1] == Digits(n / 10);
    } else {
      assert Value([]) == 0 && [DigitChar(n)][..0] == [];
    }
  }

  lemma {:induction false} ValueOfZeros(s: string)
    ensures Value("0" + s) == Value(s)
  {
    if s == [] {
      assert "0"[..0] == [];
    } else {
      ValueOfZeros(s[..|s| - 1]);
      assert ("0" + s)[..|s|] == "0" + s[..|s| - 1];
    }
  }

  lemma PaddedValue(n: nat)
    ensures AllDigits(Padded(n)) && Value(Padded(n)) == n
  {
    DigitsValue(n);
    ValueOfZeros(Digits(n));
    ValueOfZeros("0" + Digits(n));
    assert "00" + Digits(n) == "0" + ("0" + Digits(n));
  }

  lemma {:induction false} TrailingOfConcat(s: string, d: string)
    requires AllDigits(d) && s != [] && !IsDigit(s[|s| - 1])
    ensures TrailingDigits(s + d) == |d|
  {
    if d == [] {
      assert s + d == s;
    } else {
      assert (s + d)[..|s + d| - 1] == s + d[..|d| - 1];
      TrailingOfConcat(s, d[..|d| - 1]);
    }
  }

  /** Formatting loses nothing, whatever the run id contains, even `.attr` itself. */
  lemma EventIdRoundTrip(runId: string, seqNo: nat)
    ensures ParseEventId(FormatEventId(runId, seqNo)) == Some((runId, seqNo))
  {
    var d, id := Padded(seqNo), FormatEventId(runId, seqNo);
    PaddedValue(seqNo);
    TrailingOfConcat(runId + MARK, d);
    assert id[..|runId|] == runId && id[|runId|..|runId| + |MARK|] == MARK && id[|runId| + |MARK|..] == d;
  }

  /** A primary-key clash is exactly a clash of run id and sequence number. */
  lemma EventIdInjective(r: string, m: nat, q: string, n: nat)
    ensures FormatEventId(r, m) == FormatEventId(q, n) <==> r == q && m == n
  {
    EventIdRoundTrip(r, m);
    EventIdRoundTrip(q, n);
  }

  /** The number of the first day of month `k`. */
  function MonthStart(k: int): int
    decreases if k < EPOCH_MONTH then EPOCH_MONTH - k else k - EPOCH_MONTH
  {
    if k == EPOCH_MONTH then 0
    else if k > EPOCH_MONTH then MonthStart(k - 1) + MonthLength(k - 1)
    else MonthStart(k + 1) - MonthLength(k)
  }

  function DayNumber(date: Date): int {
    MonthStart(12 * date.year + date.month - 1) + date.day - 1
  }

  lemma {:induction false} DateFromNumber(k: int, n: int)
    ensures DayNumber(DateFrom(k, n)) == MonthStart(k) + n
    decreases n < 0, if n < 0 then -n else n
  {
    hide MonthLength;
    if n < 0 {
      DateFromNumber(k - 1, n + MonthLength(k - 1));
      MonthAfter(k - 1);
    } else if n >= MonthLength(k) {
      DateFromNumber(k + 1, n - MonthLength(k));
      MonthAfter(k);
    }
  }

  lemma MonthAfter(k: int)
    ensures MonthStart(k + 1) == MonthStart(k) + MonthLength(k)
  {
    hide MonthLength;
  }

  /** Every day has a date of its own. */
  lemma DateRoundTrip(day: int)
    ensures DayNumber(DateOf(day)) == day
  {
    DateFromNumber(EPOCH_MONTH, day);
  }

  /** The date is one of the calendar: its month has such a day. */
  predicate IsDate(date: Date) {
    1 <= date.month <= 12 && 1 <= date.day <= MonthLength(12 * date.year + date.month - 1)
  }

  lemma {:induction false} DateFromIsDate(k: int, n: int)
    ensures IsDate(DateFrom(k, n))
    decreases n < 0, if n < 0 then -n else n
  {
    hide MonthLength;
    if n < 0 {
      DateFromIsDate(k - 1, n + MonthLength(k - 1));
    } else if n >= MonthLength(k) {
      DateFromIsDate(k + 1, n - MonthLength(k));
    }
  }

  lemma {:induction false} MonthsAscend(j: int, k: int)
    requires j <= k
    ensures MonthStart(j) <= MonthStart(k)
    decreases k - j
  {
    if j < k {
      MonthsAscend(j, k - 1);
      MonthAfter(k - 1);
    }
  }

  lemma EarlierMonth(c: Date, d: Date)
    requires IsDate(c) && IsDate(d) && 12 * c.year + c.month < 12 * d.year + d.month
    ensures DayNumber(c) < DayNumber(d)
  {
    hide MonthLength, MonthStart;
    MonthAfter(12 * c.year + c.month - 1);
    MonthsAscend(12 * c.year + c.month, 12 * d.year + d.month - 1);
  }

  /** Every date of the calendar is the date of its number, and of no other. */
  lemma NumberRoundTrip(date: Date)
    requires IsDate(date)
    ensures DateOf(DayNumber(date)) == date
  {
    var other := DateOf(DayNumber(date));
    DateRoundTrip(DayNumber(date));
    DateFromIsDate(EPOCH_MONTH, DayNumber(date));
    hide MonthLength, MonthStart, DateFrom;
    if 12 * date.year + date.month < 12 * other.year + other.month {
      EarlierMonth(date, other);
    } else if 12 * other.year + other.month < 12 * date.year + date.month {
      EarlierMonth(other, date);
    }
  }

  // ------------------------------------------------------------------------
  // The calendar in closed form
  // ------------------------------------------------------------------------

  /** Days in the years before and including `year`, up to a constant. */
  function YearDays(year: int): int {
    365 * year + year / 4 - year / 100 + year / 400
  }

  /** Days in the months before the one that comes `m` months after March. */
  function MonthDays(m: nat): int {
    (153 * m + 2) / 5
  }

  /** The number of the first of a month, with years counted from March. */
  function CivilStart(k: int): int {
    var month := k % 12;
    if month < 2 then YearDays(k / 12 - 1) + MonthDays(month + 10) - 719468
    else YearDays(k / 12) + MonthDays(month - 2) - 719468
  }

  lemma YearStep(year: int)
    ensures YearDays(year) == YearDays(year - 1) + if IsLeap(year) then 366 else 365
  {
    DivStep(year, 4);
    DivStep(year, 100);
    DivStep(year, 400);
    assert year % 400 == 0 ==> year % 100 == 0 by { assert year == 400 * (year / 400) + year % 400; }
    assert year % 100 == 0 ==> year % 4 == 0 by { assert year == 100 * (year / 100) + year % 100; }
  }

  lemma DivStep(n: int, d: int)
    requires d == 4 || d == 100 || d == 400
    ensures n / d == (n - 1) / d + if n % d == 0 then 1 else 0
  {
  }

  lemma CivilStep(k: int)
    ensures CivilStart(k + 1) == CivilStart(k) + MonthLength(k)
  {
    hide YearDays, IsLeap;
    var year, month := k / 12, k % 12;
    YearStep(year);
    if month == 11 {
      assert (k + 1) / 12 == year + 1 && (k + 1) % 12 == 0;
    } else {
      assert (k + 1) / 12 == year && (k + 1) % 12 == month + 1;
    }
  }

  lemma {:induction false} CivilMonths(k: int)
    ensures MonthStart(k) == CivilStart(k)
    decreases if k < 23640 then 23640 - k else k - 23640
  {
    hide MonthLength;
    if k < 23640 {
      CivilMonths(k + 1);
      CivilStep(k);
      MonthAfter(k);
      hide CivilStart;
    } else if k > 23640 {
      CivilMonths(k - 1);
      CivilStep(k - 1);
      MonthAfter(k - 1);
      hide CivilStart;
    }
  }

  /** The date of a day is that of the Gregorian calendar, with day 0 on 1 January 1970. */
  lemma DayIsCivil(day: int)
    ensures var date := DateOf(day);
            IsDate(date) && CivilStart(12 * date.year + date.month - 1) + date.day - 1 == day
  {
    hide MonthLength, CivilStart, DateFrom, MonthStart;
    DateRoundTrip(day);
    DateFromIsDate(EPOCH_MONTH, day);
    CivilMonths(12 * DateOf(day).year + DateOf(day).month - 1);
  }

  lemma {:induction false} ValueOfPadding(n: nat, s: string)
    ensures Value(Zeros(n) + s) == Value(s) && |Zeros(n)| == n && AllDigits(Zeros(n))
  {
    if n == 0 {
      assert Zeros(0) + s == s;
    } else {
      ValueOfPadding(n - 1, s);
      ValueOfZeros(Zeros(n - 1) + s);
      assert Zeros(n) + s == "0" + (Zeros(n - 1) + s);
    }
  }

  lemma FourDigitsValue(n: nat)
    ensures AllDigits(FourDigits(n)) && FourDigits(n) != [] && Value(FourDigits(n)) == n
  {
    DigitsValue(n);
    var digits := Digits(n);
    if |digits| < 4 {
      ValueOfPadding(4 - |digits|, digits);
    }
  }

  lemma YearOfText(year: int, s: string)
    requires s == YearText(year)
    ensures s != [] && (s[0] == '-' <==> year < 0) && (s[0] == '+' <==> year > 9999)
    ensures year == if year < 0 then -Value(s[1..]) else if year > 9999 then Value(s[1..]) else Value(s)
  {
    hide FourDigits, Value;
    var text := FourDigits(if year < 0 then -year else year);
    FourDigitsValue(if year < 0 then -year else year);
    assert text[0] in text;
    assert s == if year < 0 then "-" + text else if year > 9999 then "+" + text else text;
  }

  lemma TwoDigitsInjective(m: nat, n: nat)
    requires m < 100 && n < 100 && TwoDigits(m) == TwoDigits(n)
    ensures m == n
  {
    assert TwoDigits(m)[0] == DigitChar(m / 10) && TwoDigits(m)[1] == DigitChar(m % 10);
    assert TwoDigits(n)[0] == DigitChar(n / 10) && TwoDigits(n)[1] == DigitChar(n % 10);
  }

  /** Text of variable length before text of fixed length. */
  lemma SplitEnd(s: string, u: string, t: string, v: string)
    requires s + u == t + v && |u| == |v|
    ensures s == t && u == v
  {
    assert s == (s + u)[..|s|] && t == (t + v)[..|t|] && u == (s + u)[|s|..] && v == (t + v)[|t|..];
  }

  lemma MaintenanceRunIdInjective(c: int, d: int)
    ensures IsMaintenance(MaintenanceRunId(d))
    ensures MaintenanceRunId(c) == MaintenanceRunId(d) <==> c == d
  {
    hide YearText, TwoDigits, DateFrom, DayNumber;
    if MaintenanceRunId(c) == MaintenanceRunId(d) {
      DateRoundTrip(c);
      DateRoundTrip(d);
      SameDate(DateOf(c), DateOf(d));
    }
  }

  lemma SameDate(c: Date, d: Date)
    requires c.month < 100 && c.day < 100 && d.month < 100 && d.day < 100
    requires MAINTENANCE + DateText(c) == MAINTENANCE + DateText(d)
    ensures c == d
  {
    hide YearText;
    assert DateText(c) == DateText(d) by {
      assert DateText(c) == (MAINTENANCE + DateText(c))[|MAINTENANCE|..];
      assert DateText(d) == (MAINTENANCE + DateText(d))[|MAINTENANCE|..];
      hide DateText;
    }
    SplitEnd(YearText(c.year) + "-" + TwoDigits(c.month) + "-", TwoDigits(c.day),
             YearText(d.year) + "-" + TwoDigits(d.month) + "-", TwoDigits(d.day));
    SplitEnd(YearText(c.year) + "-" + TwoDigits(c.month), "-", YearText(d.year) + "-" + TwoDigits(d.month), "-");
    SplitEnd(YearText(c.year) + "-", TwoDigits(c.month), YearText(d.year) + "-", TwoDigits(d.month));
    SplitEnd(YearText(c.year), "-", YearText(d.year), "-");
    TwoDigitsInjective(c.day, d.day);
    TwoDigitsInjective(c.month, d.month);
    YearOfText(c.year, YearText(c.year));
    YearOfText(d.year, YearText(d.year));
  }

  // ------------------------------------------------------------------------
  // What ids look like
  // ------------------------------------------------------------------------

  lemma SomeDigits()
    ensures Digits(2026) == "2026" && Digits(1234) == "1234" && Digits(7) == "7"
  {
    assert Digits(202) == "202" && Digits(123) == "123";
  }

  lemma DateIs(day: int, date: Date)
    requires IsDate(date) && CivilStart(12 * date.year + date.month - 1) + date.day - 1 == day
    ensures DateOf(day) == date
  {
    hide DateFrom, CivilStart, MonthLength;
    CivilMonths(12 * date.year + date.month - 1);
    NumberRoundTrip(date);
  }

  lemma FebruaryDay()
    ensures DateOf(20500) == Date(2026, 2, 16)
  {
    hide DateOf;
    DateIs(20500, Date(2026, 2, 16));
  }

  /** An event id and the synthetic run id of a day, in full. */
  lemma IdsInFull()
    ensures FormatEventId("run", 7) == "run.attr007" && FormatEventId("run", 1234) == "run.attr1234"
    ensures MaintenanceRunId(20500) == "maintenance:2026-02-16"
  {
    hide Digits, DateOf;
    SomeDigits();
    FebruaryDay();
    assert FourDigits(2026) == "2026" && TwoDigits(2) == "02" && TwoDigits(16) == "16";
  }
}
