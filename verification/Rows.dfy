/** One row of an uploaded CSV file, from text to a detail row that the database accepts. */
module Rows {
  import opened Basics
  import opened Text
  import opened Crypto
  import opened Decimals
  import opened Dates
  import opened Payloads

  type CsvRow = map<string, string>

  datatype RowError =
    | Missing(column: string) | NotADate(column: string) | NotANumber(column: string) | OutOfRange(column: string)
    | BadChoice(column: string) | DepartureMismatch | EndBeforeStart
    | StaffRow | DuplicateRow | Unhashable(reason: HashError) | LimitExceeded

  // -------------------------------------------------------------- the cells

  function StripLeft(s: string): string {
    if s != "" && IsSpace(s[0]) then StripLeft(s[1..]) else s
  }

  function StripRight(s: string): string {
    if s != "" && IsSpace(s[|s| - 1]) then StripRight(s[..|s| - 1]) else s
  }

  function Strip(s: string): string {
    StripRight(StripLeft(s))
  }

  /** `r` is what is left of `s` between white space. */
  predicate Between(s: string, before: string, r: string, after: string) {
    s == before + (r + after) && forall c | c in before || c in after :: IsSpace(c)
  }

  lemma {:induction false} StripLeftExact(s: string) returns (before: string)
    ensures Between(s, before, StripLeft(s), "")
    ensures StripLeft(s) != "" ==> !IsSpace(StripLeft(s)[0])
  {
    hide IsSpace;
    before := "";
    if s != "" && IsSpace(s[0]) {
      var rest := StripLeftExact(s[1..]);
      before := [s[0]] + rest;
    }
  }

  lemma {:induction false} StripRightExact(s: string) returns (after: string)
    ensures Between(s, "", StripRight(s), after)
    ensures StripRight(s) != "" ==> !IsSpace(StripRight(s)[|StripRight(s)| - 1]) && StripRight(s)[0] == s[0]
  {
    hide IsSpace;
    after := "";
    if s != "" && IsSpace(s[|s| - 1]) {
      var rest := StripRightExact(s[..|s| - 1]);
      after := rest + [s[|s| - 1]];
    }
  }

  /** Only white space is left out, at the two ends, and none is left there. */
  lemma StripExact(s: string)
    ensures exists before, after :: Between(s, before, Strip(s), after)
    ensures Strip(s) != "" ==> !IsSpace(Strip(s)[0]) && !IsSpace(Strip(s)[|Strip(s)| - 1])
  {
    hide IsSpace, StripLeft, StripRight;
    var before := StripLeftExact(s);
    var after := StripRightExact(StripLeft(s));
    assert StripLeft(s) == Strip(s) + after;
    assert Between(s, before, Strip(s), after);
  }

  /** `_optional`. */
  function Cell(row: CsvRow, column: string): string {
    if column in row then Strip(row[column]) else ""
  }

  /** `_require`. */
  function Require(row: CsvRow, column: string): (r: Result<string, RowError>)
    ensures r.Ok? ==> r.value == Cell(row, column) && r.value != ""
    ensures r.Err? <==> Cell(row, column) == ""
  {
    var value := Cell(row, column);
    if value == "" then Err(Missing(column)) else Ok(value)
  }

  // -------------------------------------------------------------- the dates

  function IndexOf(s: string, c: char): (i: nat)
    ensures i <= |s| && (i < |s| ==> s[i] == c) && c !in s[..i]
  {
    if s == "" || s[0] == c then 0
    else
      var i := 1 + IndexOf(s[1..], c);
      assert s[..i] == [s[0]] + s[1..][..i - 1];
      i
  }

  function Split(s: string, c: char): seq<string>
    decreases |s|
  {
    var i := IndexOf(s, c);
    if i == |s| then [s] else [s[..i]] + Split(s[i + 1..], c)
  }

  /** `%Y`: four digits, and not the year 0. */
  function YearOf(s: string): Option<nat> {
    if |s| == 4 && AllDigits(s) && NumberOf(s) >= 1 then Some(NumberOf(s)) else None
  }

  /** `%m` and the upper bound of `%d`: one or two digits. */
  function UpTo(s: string, limit: nat): Option<nat> {
    if 1 <= |s| <= 2 && AllDigits(s) && 1 <= NumberOf(s) <= limit then Some(NumberOf(s)) else None
  }

  /** `%d` also takes a blank for a leading zero. */
  function DayOf(s: string): Option<nat> {
    if |s| == 2 && s[0] == ' ' then UpTo(s[1..], 31) else UpTo(s, 31)
  }

  function MakeDate(year: Option<nat>, month: Option<nat>, day: Option<nat>): Option<CalendarDate> {
    if year.Some? && month.Some? && day.Some? && Date(year.value, month.value, day.value).Valid() then
      Some(Date(year.value, month.value, day.value))
    else None
  }

  function YearMonthDay(parts: seq<string>): Option<CalendarDate> {
    if |parts| == 3 then MakeDate(YearOf(parts[0]), UpTo(parts[1], 12), DayOf(parts[2])) else None
  }

  function DayMonthYear(parts: seq<string>): Option<CalendarDate> {
    if |parts| == 3 then MakeDate(YearOf(parts[2]), UpTo(parts[1], 12), DayOf(parts[0])) else None
  }

  function MonthDayYear(parts: seq<string>): Option<CalendarDate> {
    if |parts| == 3 then MakeDate(YearOf(parts[2]), UpTo(parts[0], 12), DayOf(parts[1])) else None
  }

  function OrElse(a: Option<CalendarDate>, b: Option<CalendarDate>): Option<CalendarDate> {
    if a.Some? then a else b
  }

  /** The four formats of `_parse_date`, in the order in which it tries them. */
  function ReadDate(s: string): Option<CalendarDate> {
    var dashed, slashed := Split(s, '-'), Split(s, '/');
    OrElse(YearMonthDay(dashed), OrElse(DayMonthYear(slashed), OrElse(MonthDayYear(slashed), DayMonthYear(dashed))))
  }

  function ParseDate(value: string, column: string): Result<CalendarDate, RowError> {
    if value == "" then Err(Missing(column))
    else
      match ReadDate(value)
      case Some(d) => Ok(d)
      case None => Err(NotADate(column))
  }

  lemma {:induction false} IndexOfFirst(a: string, c: char, rest: string)
    requires c !in a
    ensures IndexOf(a + [c] + rest, c) == |a|
  {
    if a == "" {
      assert (a + [c] + rest)[0] == c;
    } else {
      assert (a + [c] + rest)[1..] == a[1..] + [c] + rest;
      IndexOfFirst(a[1..], c, rest);
    }
  }

  lemma SplitFirst(a: string, c: char, rest: string)
    requires c !in a
    ensures Split(a + [c] + rest, c) == [a] + Split(rest, c)
  {
    IndexOfFirst(a, c, rest);
    assert (a + [c] + rest)[..|a|] == a && (a + [c] + rest)[|a| + 1..] == rest;
  }

  lemma SplitNone(a: string, c: char)
    requires c !in a
    ensures Split(a, c) == [a]
  {
  }

  lemma SplitThree(a: string, b: string, d: string, c: char)
    requires c !in a && c !in b && c !in d
    ensures Split(a + [c] + (b + [c] + d), c) == [a, b, d]
  {
    SplitFirst(a, c, b + [c] + d);
    SplitFirst(b, c, d);
    SplitNone(d, c);
  }

  function TwoDigits(n: nat): string
    requires n < 100
  {
    [Digit(n / 10), Digit(n % 10)]
  }

  function FourDigits(n: nat): string
    requires n < 10000
  {
    [Digit(n / 1000), Digit(n / 100 % 10), Digit(n / 10 % 10), Digit(n % 10)]
  }

  lemma TwoDigitsRead(n: nat)
    requires n < 100
    ensures AllDigits(TwoDigits(n)) && NumberOf(TwoDigits(n)) == n
  {
    TwoDigitsReadBack(n);
  }

  lemma FourDigitsRead(n: nat)
    requires n < 10000
    ensures AllDigits(FourDigits(n)) && NumberOf(FourDigits(n)) == n
  {
    var s := FourDigits(n);
    assert s[..1] == [s[0]] && s[..1][..0] == "" && s[..2][..1] == s[..1] && s[..3][..2] == s[..2];
    assert NumberOf(s[..1]) == n / 1000;
    assert NumberOf(s[..2]) == n / 1000 * 10 + n / 100 % 10;
    assert NumberOf(s[..3]) == (n / 1000 * 10 + n / 100 % 10) * 10 + n / 10 % 10;
    Places(n);
  }

  lemma PartsRead(d: CalendarDate)
    ensures YearOf(FourDigits(d.year)) == Some(d.year)
    ensures UpTo(TwoDigits(d.month), 12) == Some(d.month) && DayOf(TwoDigits(d.day)) == Some(d.day)
    ensures UpTo(TwoDigits(d.day), 12) == if d.day <= 12 then Some(d.day) else None
    ensures DayOf(TwoDigits(d.month)) == Some(d.month)
    ensures forall c | c == '-' || c == '/' ::
              c !in FourDigits(d.year) && c !in TwoDigits(d.month) && c !in TwoDigits(d.day)
  {
    FourDigitsRead(d.year);
    TwoDigitsRead(d.month);
    TwoDigitsRead(d.day);
  }

  lemma IsoShape(d: CalendarDate)
    ensures IsoDate(d) == FourDigits(d.year) + ['-'] + (TwoDigits(d.month) + ['-'] + TwoDigits(d.day))
  {
  }

  /** The format the error message recommends always works: ISO text reads back as its date. */
  lemma IsoDatesReadBack(d: CalendarDate)
    ensures ReadDate(IsoDate(d)) == Some(d)
  {
    hide YearOf, UpTo, DayOf, IsoDate, ReadDate, Split, FourDigits, TwoDigits;
    PartsRead(d);
    IsoShape(d);
    SplitThree(FourDigits(d.year), TwoDigits(d.month), TwoDigits(d.day), '-');
    FirstFormatWins(IsoDate(d), d);
  }

  lemma FirstFormatWins(s: string, d: CalendarDate)
    requires YearMonthDay(Split(s, '-')) == Some(d)
    ensures ReadDate(s) == Some(d)
  {
    hide Split, YearMonthDay;
  }

  lemma NoDashFormats(s: string)
    requires '-' !in s
    ensures ReadDate(s) == OrElse(DayMonthYear(Split(s, '/')), MonthDayYear(Split(s, '/')))
  {
    SplitNone(s, '-');
  }

  function DayFirstText(d: CalendarDate): string {
    TwoDigits(d.day) + ['/'] + (TwoDigits(d.month) + ['/'] + FourDigits(d.year))
  }

  function MonthFirstText(d: CalendarDate): string {
    TwoDigits(d.month) + ['/'] + (TwoDigits(d.day) + ['/'] + FourDigits(d.year))
  }

  lemma DayFirstReadsBack(d: CalendarDate)
    ensures ReadDate(DayFirstText(d)) == Some(d)
  {
    PartsRead(d);
    hide YearOf, UpTo, DayOf, FourDigits, TwoDigits, Split, ReadDate;
    var y, m, t := FourDigits(d.year), TwoDigits(d.month), TwoDigits(d.day);
    SplitThree(t, m, y, '/');
    assert '-' !in DayFirstText(d);
    NoDashFormats(DayFirstText(d));
  }

  /**
   With slashes the day comes first: a date written month first is read as itself exactly when
   its day cannot be a month, or is the month. Any other is silently read as another date.
   */
  lemma MonthFirstExact(d: CalendarDate)
    ensures ReadDate(MonthFirstText(d)).Some?
    ensures ReadDate(MonthFirstText(d)) == Some(d) <==> d.day > 12 || d.day == d.month
  {
    PartsRead(d);
    hide YearOf, UpTo, DayOf, FourDigits, TwoDigits, Split, ReadDate;
    var y, m, t := FourDigits(d.year), TwoDigits(d.month), TwoDigits(d.day);
    SplitThree(m, t, y, '/');
    assert '-' !in MonthFirstText(d);
    NoDashFormats(MonthFirstText(d));
  }

  // ------------------------------------------- the formats, said of the text itself

  /** Three pieces without the mark, and the mark between them. */
  predicate Pieces(s: string, mark: char, a: string, b: string, c: string) {
    s == a + [mark] + (b + [mark] + c) && mark !in a && mark !in b && mark !in c
  }

  predicate Spelt(s: string, width: nat, n: nat) {
    1 <= |s| <= width && AllDigits(s) && NumberOf(s) == n
  }

  /** Year, month and day as written: the year with four digits, and a blank for a leading zero of the day. */
  predicate Spells(year: string, month: string, day: string, d: CalendarDate) {
    && |year| == 4 && Spelt(year, 4, d.year) && Spelt(month, 2, d.month)
    && (Spelt(day, 2, d.day) || (|day| == 2 && day[0] == ' ' && Spelt(day[1..], 1, d.day)))
  }

  ghost predicate YearFirst(s: string, d: CalendarDate) {
    exists y, m, t :: Pieces(s, '-', y, m, t) && Spells(y, m, t, d)
  }

  ghost predicate DayFirst(s: string, mark: char, d: CalendarDate) {
    exists y, m, t :: Pieces(s, mark, t, m, y) && Spells(y, m, t, d)
  }

  ghost predicate MonthFirst(s: string, d: CalendarDate) {
    exists y, m, t :: Pieces(s, '/', m, t, y) && Spells(y, m, t, d)
  }

  lemma SplitOnce(s: string, c: char) returns (a: string, rest: string)
    requires c in s
    ensures s == a + [c] + rest && c !in a && Split(s, c) == [a] + Split(rest, c)
  {
    var i := IndexOf(s, c);
    a, rest := s[..i], s[i + 1..];
  }

  lemma SplitNotEmpty(s: string, c: char)
    ensures Split(s, c) != []
  {
  }

  lemma SplitPieces(s: string, c: char)
    requires |Split(s, c)| == 3
    ensures Pieces(s, c, Split(s, c)[0], Split(s, c)[1], Split(s, c)[2])
  {
    hide Split;
    if c !in s {
      SplitNone(s, c);
    } else {
      var a, t := SplitOnce(s, c);
      if c !in t {
        SplitNone(t, c);
      } else {
        var b, u := SplitOnce(t, c);
        if c !in u {
          SplitNone(u, c);
        } else {
          var d, v := SplitOnce(u, c);
          SplitNotEmpty(v, c);
        }
      }
    }
  }

  lemma SplitExact(s: string, mark: char, a: string, b: string, c: string)
    ensures Split(s, mark) == [a, b, c] <==> Pieces(s, mark, a, b, c)
  {
    if Split(s, mark) == [a, b, c] {
      SplitPieces(s, mark);
    }
    if Pieces(s, mark, a, b, c) {
      SplitThree(a, b, c, mark);
    }
  }

  /** The three numbers are read exactly when they are spelt, and make a date. */
  lemma MadeExact(y: string, m: string, t: string, d: CalendarDate)
    ensures MakeDate(YearOf(y), UpTo(m, 12), DayOf(t)) == Some(d) <==> Spells(y, m, t, d)
  {
  }

  lemma YearFirstExact(s: string, d: CalendarDate)
    ensures YearMonthDay(Split(s, '-')) == Some(d) <==> YearFirst(s, d)
  {
    hide Split, YearOf, UpTo, DayOf, Spells, Pieces, MakeDate;
    var p := Split(s, '-');
    if |p| == 3 {
      assert p == [p[0], p[1], p[2]];
      SplitExact(s, '-', p[0], p[1], p[2]);
      MadeExact(p[0], p[1], p[2], d);
    }
    if y, m, t :| Pieces(s, '-', y, m, t) && Spells(y, m, t, d) {
      SplitExact(s, '-', y, m, t);
    }
  }

  lemma DayFirstExact(s: string, mark: char, d: CalendarDate)
    ensures DayMonthYear(Split(s, mark)) == Some(d) <==> DayFirst(s, mark, d)
  {
    hide Split, YearOf, UpTo, DayOf, Spells, Pieces, MakeDate;
    var p := Split(s, mark);
    if |p| == 3 {
      assert p == [p[0], p[1], p[2]];
      SplitExact(s, mark, p[0], p[1], p[2]);
      MadeExact(p[2], p[1], p[0], d);
    }
    if y, m, t :| Pieces(s, mark, t, m, y) && Spells(y, m, t, d) {
      SplitExact(s, mark, t, m, y);
    }
  }

  lemma MonthFirstReads(s: string, d: CalendarDate)
    ensures MonthDayYear(Split(s, '/')) == Some(d) <==> MonthFirst(s, d)
  {
    hide Split, YearOf, UpTo, DayOf, Spells, Pieces, MakeDate;
    var p := Split(s, '/');
    if |p| == 3 {
      assert p == [p[0], p[1], p[2]];
      SplitExact(s, '/', p[0], p[1], p[2]);
      MadeExact(p[2], p[0], p[1], d);
    }
    if y, m, t :| Pieces(s, '/', m, t, y) && Spells(y, m, t, d) {
      SplitExact(s, '/', m, t, y);
    }
  }

  lemma SpeltWithoutMarks(y: string, m: string, t: string, d: CalendarDate)
    requires Spells(y, m, t, d)
    ensures forall c | c == '-' || c == '/' :: c !in y && c !in m && c !in t
  {
    if t[0] == ' ' {
      assert t == [' '] + t[1..];
    }
  }

  /** A text with dashes has no reading with slashes, and a year is no day. */
  lemma FormatsExclude(s: string, d: CalendarDate, e: CalendarDate)
    ensures YearFirst(s, d) || DayFirst(s, '-', d) ==> !DayFirst(s, '/', e) && !MonthFirst(s, e)
    ensures YearFirst(s, d) ==> !DayFirst(s, '-', e)
  {
    hide Spells, Pieces;
    if YearFirst(s, d) {
      var y, m, t :| Pieces(s, '-', y, m, t) && Spells(y, m, t, d);
      SpeltWithoutMarks(y, m, t, d);
      NoSlash(s, y, m, t);
    }
    if DayFirst(s, '-', d) {
      var y, m, t :| Pieces(s, '-', t, m, y) && Spells(y, m, t, d);
      SpeltWithoutMarks(y, m, t, d);
      NoSlash(s, t, m, y);
    }
    SlashIn(s, e);
    FirstPiece(s, d, e);
  }

  lemma NoSlash(s: string, a: string, b: string, c: string)
    requires Pieces(s, '-', a, b, c) && '/' !in a && '/' !in b && '/' !in c
    ensures '/' !in s
  {
  }

  lemma FirstPiece(s: string, d: CalendarDate, e: CalendarDate)
    ensures YearFirst(s, d) ==> Split(s, '-') != [] && |Split(s, '-')[0]| == 4
    ensures DayFirst(s, '-', e) ==> Split(s, '-') != [] && |Split(s, '-')[0]| <= 2
  {
    hide Pieces, Split;
    if y, m, t :| Pieces(s, '-', y, m, t) && Spells(y, m, t, d) {
      SplitExact(s, '-', y, m, t);
    }
    if y, m, t :| Pieces(s, '-', t, m, y) && Spells(y, m, t, e) {
      SplitExact(s, '-', t, m, y);
    }
  }

  lemma SlashIn(s: string, e: CalendarDate)
    ensures DayFirst(s, '/', e) || MonthFirst(s, e) ==> '/' in s
  {
    hide Spells;
  }

  /**
   What a date cell is read as: year first, or day first, or month first where no day-first
   reading exists; and nothing else is a date.
   */
  lemma ReadDateExact(s: string, d: CalendarDate)
    ensures ReadDate(s) == Some(d) <==>
              || YearFirst(s, d) || DayFirst(s, '/', d) || DayFirst(s, '-', d)
              || (MonthFirst(s, d) && forall e: CalendarDate :: !DayFirst(s, '/', e))
  {
    hide Split, YearMonthDay, DayMonthYear, MonthDayYear, YearFirst, DayFirst, MonthFirst;
    var first, second := YearMonthDay(Split(s, '-')), DayMonthYear(Split(s, '/'));
    var third, fourth := MonthDayYear(Split(s, '/')), DayMonthYear(Split(s, '-'));
    YearFirstExact(s, d);
    DayFirstExact(s, '/', d);
    MonthFirstReads(s, d);
    DayFirstExact(s, '-', d);
    forall e: CalendarDate ensures second == Some(e) <==> DayFirst(s, '/', e) {
      DayFirstExact(s, '/', e);
    }
    FormatsExclude(s, d, d);
    if first.Some? {
      YearFirstExact(s, first.value);
      FormatsExclude(s, first.value, d);
    } else if second.Some? {
      FormatsExclude(s, d, second.value);
    } else if third.Some? {
      MonthFirstReads(s, third.value);
      FormatsExclude(s, d, third.value);
    }
  }

  // ------------------------------------------------------------ the numbers

  /** `Decimal(text)`: any partial function from text to decimals will do. */
  const DECIMAL_OF: string -> Option<Decimal>

  /** `0 <= d <= high`; the comparison raises when `d` is not a number. */
  predicate InRange(d: Decimal, high: nat) {
    && d.Finite? && (d.negative ==> d.coefficient == 0)
    && if d.exponent >= 0 then d.coefficient * Pow10(d.exponent) <= high
       else d.coefficient <= high * Pow10(-d.exponent)
  }

  /** `q` is a nearest integer to `n / m`. */
  predicate Nearest(n: nat, m: nat, q: nat) {
    -(m as int) <= 2 * (q * m - n) <= m
  }

  ghost predicate RoundingLaws(f: (nat, nat) -> nat) {
    forall n: nat, m: nat | m > 0 :: Nearest(n, m, f(n, m))
  }

  function HalfEven(n: nat, m: nat): (q: nat)
    ensures m > 0 ==> Nearest(n, m, q)
  {
    if m == 0 then 0 else RoundedIsNearestEven(n, m); RoundHalfEven(n, m)
  }

  type Rounding = f: (nat, nat) -> nat | RoundingLaws(f) witness (n: nat, m: nat) => HalfEven(n, m)

  /** How the database rounds to its two places: to the nearest, and ties as its backend has it. */
  const TO_COLUMN: Rounding

  /** What a column with two decimal places keeps of a number that is in range. */
  function Stored(d: Decimal): Decimal
    requires d.Finite?
  {
    Finite(false,
           if d.exponent >= -2 then d.coefficient * Pow10(d.exponent + 2) else TO_COLUMN(d.coefficient, Pow10(-2 - d.exponent)),
           -2)
  }

  /** `_parse_decimal` with the lower bound 0, and the column it is stored in. */
  function ParseDecimal(value: string, column: string, high: nat): Result<Option<Decimal>, RowError> {
    if value == "" then Ok(None)
    else
      match DECIMAL_OF(value)
      case None => Err(NotANumber(column))
      case Some(d) => if InRange(d, high) then Ok(Some(Stored(d))) else Err(OutOfRange(column))
  }

  /** The CHECK constraint of a column: two decimal places, from 0 to `high`. */
  predicate Fits(d: Option<Decimal>, high: nat) {
    d.Some? ==> d.value.Finite? && !d.value.negative && d.value.exponent == -2 && d.value.coefficient <= 100 * high
  }

  lemma TimesGrows(a: nat, b: nat, m: nat)
    requires a <= b
    ensures a * m <= b * m
  {
  }

  lemma NearestAtMost(n: nat, m: nat, q: nat, r: nat)
    requires m > 0 && n <= q * m && Nearest(n, m, r)
    ensures r <= q
  {
    if r > q {
      TimesGrows(q + 1, r, m);
    }
  }

  /** Rounding to two places never pushes a number over the bound it was checked against. */
  lemma StoredFits(d: Decimal, high: nat)
    requires InRange(d, high)
    ensures Fits(Some(Stored(d)), high)
  {
    if d.exponent >= 0 {
      Pow10Add(d.exponent, 2);
      assert Pow10(2) == 100;
      assert d.coefficient * Pow10(d.exponent + 2) == d.coefficient * Pow10(d.exponent) * 100;
    } else if d.exponent >= -2 {
      assert Pow10(0) == 1 && Pow10(1) == 10 && Pow10(2) == 100;
    } else {
      Pow10Add(-2 - d.exponent, 2);
      assert Pow10(2) == 100;
      assert high * Pow10(-d.exponent) == (100 * high) * Pow10(-2 - d.exponent);
      var m := Pow10(-2 - d.exponent);
      NearestAtMost(d.coefficient, m, 100 * high, TO_COLUMN(d.coefficient, m));
    }
  }

  /** The number itself. */
  ghost function ValueOf(d: Decimal): real
    requires d.Finite?
  {
    var size := if d.exponent >= 0 then (d.coefficient * Pow10(d.exponent)) as real
                else d.coefficient as real / Pow10(-d.exponent) as real;
    if d.negative then -size else size
  }

  lemma Quotient(n: nat, m: nat, high: nat)
    requires m > 0
    ensures 0.0 <= n as real / m as real
    ensures n == 0 <==> n as real / m as real == 0.0
    ensures n <= high * m <==> n as real / m as real <= high as real
  {
    var q := n as real / m as real;
    assert q * m as real == n as real;
    assert (high * m) as real == high as real * m as real;
    if q <= high as real {
      assert (high as real - q) * m as real >= 0.0;
    } else {
      assert (q - high as real) * m as real > 0.0;
    }
  }

  /** The bounds are those of the numbers, however they were written. */
  lemma InRangeExact(d: Decimal, high: nat)
    ensures InRange(d, high) <==> d.Finite? && 0.0 <= ValueOf(d) <= high as real
  {
    if d.Finite? && d.exponent < 0 {
      Quotient(d.coefficient, Pow10(-d.exponent), high);
    } else if d.Finite? {
      Times(d.coefficient, Pow10(d.exponent));
    }
  }

  lemma Times(a: nat, b: nat)
    requires b > 0
    ensures a * b == 0 <==> a == 0
  {
  }

  /** What the column keeps is the number itself, or the nearest number of hundredths. */
  lemma StoredExact(d: Decimal)
    requires d.Finite? && !d.negative
    ensures Stored(d).Finite? && !Stored(d).negative && Stored(d).exponent == -2
    ensures d.exponent >= -2 ==> ValueOf(Stored(d)) == ValueOf(d)
    ensures -0.005 <= ValueOf(Stored(d)) - ValueOf(d) <= 0.005
  {
    assert Pow10(2) == 100 && Pow10(1) == 10 && Pow10(0) == 1;
    if d.exponent >= 0 {
      Pow10Add(d.exponent, 2);
      assert d.coefficient * Pow10(d.exponent + 2) == d.coefficient * Pow10(d.exponent) * 100;
    } else if d.exponent < -2 {
      var k := -2 - d.exponent;
      Pow10Add(k, 2);
      NearHundredth(d.coefficient, Pow10(k), TO_COLUMN(d.coefficient, Pow10(k)));
    }
  }

  lemma NearHundredth(n: nat, m: nat, q: nat)
    requires m > 0 && Nearest(n, m, q)
    ensures -0.005 <= q as real / 100.0 - n as real / (m * 100) as real <= 0.005
  {
    assert (q * m) as real == q as real * m as real;
    assert (q * m - n) as real == (q * m) as real - n as real;
    assert (m * 100) as real == m as real * 100.0;
    WithinHalf(n as real, m as real, q as real, n as real / (m * 100) as real);
  }

  lemma WithinHalf(n: real, m: real, q: real, x: real)
    requires m > 0.0 && x * (m * 100.0) == n && -m <= 2.0 * (q * m - n) <= m
    ensures -0.005 <= q / 100.0 - x <= 0.005
  {
    var e := q / 100.0 - x;
    assert e * (m * 100.0) == q * m - n by {
      assert q / 100.0 * (m * 100.0) == q * m;
    }
    Positive(e - 0.005, m * 100.0);
    Positive(-0.005 - e, m * 100.0);
  }

  lemma Positive(x: real, y: real)
    requires y > 0.0
    ensures x > 0.0 ==> x * y > 0.0
  {
  }

  // ------------------------------------------------------------- the details

  /** `str.upper()`; nothing about it matters here. */
  const UPPER: string -> string

  const LEVELS := {"SCHOOL", "PLUS_TWO", "DIPLOMA", "BACHELORS", "MASTERS", "DOCTORATE", "CERTIFICATE"}
  const EMPLOYMENT_TYPES := {"FULL_TIME", "PART_TIME", "CONTRACT", "INTERNSHIP", "CONSULTANT"}
  const DEPARTURES := {"CURRENT", "RESIGNED", "CONTRACT_ENDED", "RETIRED", "TERMINATED"}

  const MAX_CGPA: nat := 4
  const MAX_PERCENTAGE: nat := 100

  /** The constraints of the academic table, and the choices of its columns. */
  predicate AcademicFits(d: AcademicDetail) {
    && d.registrationNumber != "" && d.degreeTitle != "" && d.level in LEVELS
    && Fits(d.cgpa, MAX_CGPA) && Fits(d.percentage, MAX_PERCENTAGE)
  }

  /** Current, without an end date, and with the status CURRENT are one thing; no end before the start. */
  predicate ExperienceFits(d: ExperienceDetail) {
    && d.jobTitle != "" && d.employmentType in EMPLOYMENT_TYPES && d.departureStatus in DEPARTURES
    && (d.isCurrent <==> d.endDate.None?) && (d.isCurrent <==> d.departureStatus == "CURRENT")
    && (d.endDate.Some? ==> !d.endDate.value.Before(d.startDate))
  }

  function Choice(row: CsvRow, column: string, default: string): string {
    var value := UPPER(Cell(row, column));
    if value == "" then default else value
  }

  /** A choice in upper case, or what stands for a blank cell. */
  predicate Chosen(value: string, cell: string, default: string) {
    (UPPER(cell) != "" && value == UPPER(cell)) || (UPPER(cell) == "" && value == default)
  }

  /** Nothing for a blank cell, and otherwise its number as the column keeps it. */
  predicate Counted(d: Option<Decimal>, cell: string) {
    if cell == "" then d.None?
    else DECIMAL_OF(cell).Some? && DECIMAL_OF(cell).value.Finite? && d == Some(Stored(DECIMAL_OF(cell).value))
  }

  /** A blank cell, or a number within the bounds. */
  predicate Countable(cell: string, high: nat) {
    cell == "" || (DECIMAL_OF(cell).Some? && InRange(DECIMAL_OF(cell).value, high))
  }

  /** The cell of the row that each column of the table holds. */
  predicate AcademicFrom(d: AcademicDetail, row: CsvRow) {
    && d.registrationNumber == Cell(row, "registration_number") && d.degreeTitle == Cell(row, "degree_title")
    && d.major == Cell(row, "major") && d.honours == Cell(row, "honours")
    && Chosen(d.level, Cell(row, "level"), "BACHELORS")
    && ReadDate(Cell(row, "graduation_date")) == Some(d.graduationDate)
    && Counted(d.cgpa, Cell(row, "cgpa")) && Counted(d.percentage, Cell(row, "percentage"))
  }

  /** The rows that make an academic record. */
  predicate AcademicReadable(row: CsvRow) {
    && (UPPER(Cell(row, "level")) == "" || UPPER(Cell(row, "level")) in LEVELS)
    && Cell(row, "registration_number") != "" && Cell(row, "degree_title") != ""
    && ReadDate(Cell(row, "graduation_date")).Some?
    && Countable(Cell(row, "cgpa"), 4) && Countable(Cell(row, "percentage"), 100)
  }

  lemma ParseDateExact(value: string, column: string)
    ensures ParseDate(value, column).Ok? <==> ReadDate(value).Some?
    ensures ParseDate(value, column).Ok? ==> ReadDate(value) == Some(ParseDate(value, column).value)
  {
    if value == "" {
      SplitNone("", '-');
      SplitNone("", '/');
    }
  }

  /** `_parse_academic_row`. */
  function ParseAcademic(row: CsvRow): (r: Result<AcademicDetail, RowError>)
    ensures r.Ok? <==> AcademicReadable(row)
    ensures r.Ok? ==> AcademicFits(r.value) && AcademicFrom(r.value, row)
  {
    hide ReadDate, InRange, Stored, Strip, ParseDate, Cell;
    var level := Choice(row, "level", "BACHELORS");
    if level !in LEVELS then Err(BadChoice("level"))
    else
      var number, title := Require(row, "registration_number"), Require(row, "degree_title");
      var date := ParseDate(Cell(row, "graduation_date"), "graduation_date");
      ParseDateExact(Cell(row, "graduation_date"), "graduation_date");
      var cgpa := ParseDecimal(Cell(row, "cgpa"), "cgpa", MAX_CGPA);
      var percentage := ParseDecimal(Cell(row, "percentage"), "percentage", MAX_PERCENTAGE);
      if number.Err? then Err(number.error)
      else if title.Err? then Err(title.error)
      else if date.Err? then Err(date.error)
      else if cgpa.Err? then Err(cgpa.error)
      else if percentage.Err? then Err(percentage.error)
      else
        ParsedFits(Cell(row, "cgpa"), "cgpa", MAX_CGPA);
        ParsedFits(Cell(row, "percentage"), "percentage", MAX_PERCENTAGE);
        Ok(AcademicDetail(number.value, title.value, Cell(row, "major"), level, date.value,
                          cgpa.value, percentage.value, Cell(row, "honours")))
  }

  lemma ParsedFits(value: string, column: string, high: nat)
    ensures var r := ParseDecimal(value, column, high); r.Ok? ==> Fits(r.value, high)
  {
    if value != "" && DECIMAL_OF(value).Some? && InRange(DECIMAL_OF(value).value, high) {
      StoredFits(DECIMAL_OF(value).value, high);
    }
  }

  /** No end date, or a word for none. */
  predicate IsCurrent(end: string) {
    LOWER(end) in {"", "present", "current"}
  }

  function EndDate(end: string): Result<Option<CalendarDate>, RowError> {
    if IsCurrent(end) then Ok(None)
    else
      match ParseDate(end, "end_date")
      case Ok(d) => Ok(Some(d))
      case Err(e) => Err(e)
  }

  /** What stands for a blank departure: still there without an end date, resigned with one. */
  function UsualDeparture(end: string): string {
    if IsCurrent(end) then "CURRENT" else "RESIGNED"
  }

  /** The cell of the row that each column of the table holds. */
  predicate ExperienceFrom(d: ExperienceDetail, row: CsvRow) {
    && d.jobTitle == Cell(row, "job_title") && d.department == Cell(row, "department")
    && d.responsibilities == Cell(row, "responsibilities")
    && Chosen(d.employmentType, Cell(row, "employment_type"), "FULL_TIME")
    && Chosen(d.departureStatus, Cell(row, "departure_status"), UsualDeparture(Cell(row, "end_date")))
    && ReadDate(Cell(row, "start_date")) == Some(d.startDate)
    && (d.isCurrent <==> LOWER(Cell(row, "end_date")) in {"", "present", "current"})
    && (if d.isCurrent then d.endDate.None?
        else d.endDate.Some? && ReadDate(Cell(row, "end_date")) == Some(d.endDate.value))
  }

  /** The rows that make an experience record. */
  predicate ExperienceReadable(row: CsvRow) {
    var end := Cell(row, "end_date");
    var departure, employment := UPPER(Cell(row, "departure_status")), UPPER(Cell(row, "employment_type"));
    && (departure == "" || (departure in DEPARTURES && (departure == "CURRENT" <==> IsCurrent(end))))
    && (employment == "" || employment in EMPLOYMENT_TYPES)
    && Cell(row, "job_title") != "" && ReadDate(Cell(row, "start_date")).Some?
    && (!IsCurrent(end) ==>
          ReadDate(end).Some? && !ReadDate(end).value.Before(ReadDate(Cell(row, "start_date")).value))
  }

  /** `_parse_experience_row`. */
  function ParseExperience(row: CsvRow): (r: Result<ExperienceDetail, RowError>)
    ensures r.Ok? ==> ExperienceFits(r.value)
  {
    var end := Cell(row, "end_date");
    var departure := Choice(row, "departure_status", if IsCurrent(end) then "CURRENT" else "RESIGNED");
    var employment := Choice(row, "employment_type", "FULL_TIME");
    if departure !in DEPARTURES then Err(BadChoice("departure_status"))
    else if IsCurrent(end) != (departure == "CURRENT") then Err(DepartureMismatch)
    else if employment !in EMPLOYMENT_TYPES then Err(BadChoice("employment_type"))
    else
      var start, last, title := ParseDate(Cell(row, "start_date"), "start_date"), EndDate(end), Require(row, "job_title");
      if start.Err? then Err(start.error)
      else if last.Err? then Err(last.error)
      else if last.value.Some? && last.value.value.Before(start.value) then Err(EndBeforeStart)
      else if title.Err? then Err(title.error)
      else
        Ok(ExperienceDetail(title.value, Cell(row, "department"), employment, start.value, last.value,
                            IsCurrent(end), departure, Cell(row, "responsibilities")))
  }

  /** Which rows make an experience record. */
  lemma ExperienceJudged(row: CsvRow)
    ensures ParseExperience(row).Ok? <==> ExperienceReadable(row)
  {
    hide ReadDate, Strip, ParseDate, Cell;
    ParseDateExact(Cell(row, "start_date"), "start_date");
    ParseDateExact(Cell(row, "end_date"), "end_date");
  }

  /** Which cell each of its columns holds. */
  lemma ExperienceTaken(row: CsvRow)
    ensures ParseExperience(row).Ok? ==> ExperienceFrom(ParseExperience(row).value, row)
  {
    hide ReadDate, Strip, ParseDate, Cell;
    ParseDateExact(Cell(row, "start_date"), "start_date");
    ParseDateExact(Cell(row, "end_date"), "end_date");
  }

  /** A refusal that one row alone gives reason for. */
  predicate OfTheRow(e: RowError) {
    !e.StaffRow? && !e.DuplicateRow? && !e.Unhashable? && !e.LimitExceeded?
  }

  lemma AcademicErrors(row: CsvRow)
    ensures ParseAcademic(row).Err? ==> OfTheRow(ParseAcademic(row).error)
  {
    hide ReadDate, InRange, Stored, Cell, Choice, AcademicReadable, AcademicFrom, AcademicFits;
  }

  lemma ExperienceErrors(row: CsvRow)
    ensures ParseExperience(row).Err? ==> OfTheRow(ParseExperience(row).error)
  {
    hide ReadDate, Cell, Choice, IsCurrent, ExperienceFits;
  }
}
