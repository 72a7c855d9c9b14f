/**
 * Local calendar days and their `YYYY-MM-DD` keys, as computed with
 * JavaScript `Date` objects (`getFullYear`, `getMonth() + 1`, `getDate`) and
 * stepped backwards with `setDate(getDate() - i)`.
 */
module Calendar {
  import opened Text

  datatype Date = Date(year: int, month: int, day: int)

  predicate IsLeapYear(y: int) {
    (y % 4 == 0 && y % 100 != 0) || y % 400 == 0
  }

  function DaysInMonth(y: int, m: int): (n: int)
    requires 1 <= m <= 12
    ensures 28 <= n <= 31
  {
    if m == 2 then (if IsLeapYear(y) then 29 else 28)
    else if m == 4 || m == 6 || m == 9 || m == 11 then 30
    else 31
  }

  predicate ValidDate(d: Date) {
    1 <= d.month <= 12 && 1 <= d.day <= DaysInMonth(d.year, d.month)
  }

  /** Whether `a` is a strictly earlier day than `b`. */
  predicate Before(a: Date, b: Date) {
    a.year < b.year
    || (a.year == b.year && a.month < b.month)
    || (a.year == b.year && a.month == b.month && a.day < b.day)
  }

  predicate DateLe(a: Date, b: Date) {
    a == b || Before(a, b)
  }

  /** The day before `d` (what `setDate(getDate() - 1)` moves to). */
  function PrevDay(d: Date): (p: Date)
    requires ValidDate(d)
    ensures ValidDate(p) && Before(p, d)
  {
    if d.day > 1 then Date(d.year, d.month, d.day - 1)
    else if d.month > 1 then Date(d.year, d.month - 1, DaysInMonth(d.year, d.month - 1))
    else Date(d.year - 1, 12, 31)
  }

  /** No valid day lies strictly between the previous day and `d`: it is the latest valid day before `d`. */
  lemma PrevDayIsLatest(d: Date, x: Date)
    requires ValidDate(d) && ValidDate(x) && Before(x, d)
    ensures DateLe(x, PrevDay(d))
  {
  }

  /** The day `n` days before `today`. */
  function DaysBefore(today: Date, n: nat): (d: Date)
    requires ValidDate(today)
    ensures ValidDate(d)
  {
    if n == 0 then today else PrevDay(DaysBefore(today, n - 1))
  }

  lemma {:induction false} BeforeTrans(a: Date, b: Date, c: Date)
    requires Before(a, b) && Before(b, c)
    ensures Before(a, c)
  {
  }

  /** Days further back in the window are strictly earlier. */
  lemma {:induction false} DaysBeforeOrder(today: Date, i: nat, j: nat)
    requires ValidDate(today) && i < j
    ensures Before(DaysBefore(today, j), DaysBefore(today, i))
    decreases j - i
  {
    if j > i + 1 {
      DaysBeforeOrder(today, i, j - 1);
      BeforeTrans(DaysBefore(today, j), DaysBefore(today, j - 1), DaysBefore(today, i));
    }
  }

  /** `getDateKey` / `getTodayKey`: year, '-', two-digit month, '-', two-digit day. */
  function DateKey(d: Date): string {
    IntToString(d.year) + "-" + Pad2(d.month) + "-" + Pad2(d.day)
  }

  predicate FourDigitYear(d: Date) {
    1000 <= d.year <= 9999
  }

  /** For a valid date with a four-digit year, the key is the three fixed-width fields joined by '-'. */
  lemma DateKeyFixed(d: Date)
    requires ValidDate(d) && FourDigitYear(d)
    ensures DateKey(d) == FixedDigits(d.year, 4) + ("-" + (FixedDigits(d.month, 2) + ("-" + FixedDigits(d.day, 2))))
  {
    assert Pow10(3) == 1000 && Pow10(4) == 10000;
    NatToStringFixed(d.year, 4);
    Pad2Fixed(d.month);
    Pad2Fixed(d.day);
  }

  lemma DateKeyShape(d: Date)
    requires ValidDate(d) && FourDigitYear(d)
    ensures |DateKey(d)| == 10 && DateKey(d)[4] == '-' && DateKey(d)[7] == '-'
  {
    DateKeyFixed(d);
  }

  lemma LexLeSameHead(c: char, p: string, q: string)
    ensures LexLe([c] + p, [c] + q) <==> LexLe(p, q)
  {
    LexLeConcat([c], p, [c], q);
  }

  /** For four-digit years, string order of the keys is chronological order. */
  lemma DateKeyOrder(a: Date, b: Date)
    requires ValidDate(a) && FourDigitYear(a) && ValidDate(b) && FourDigitYear(b)
    ensures LexLe(DateKey(a), DateKey(b)) <==> DateLe(a, b)
  {
    assert Pow10(2) == 100 && Pow10(4) == 10000;
    DateKeyFixed(a);
    DateKeyFixed(b);
    var ya, yb := FixedDigits(a.year, 4), FixedDigits(b.year, 4);
    var ma, mb := FixedDigits(a.month, 2), FixedDigits(b.month, 2);
    var da, db := FixedDigits(a.day, 2), FixedDigits(b.day, 2);
    FixedDigitsOrder(a.year, b.year, 4);
    FixedDigitsOrder(a.month, b.month, 2);
    FixedDigitsOrder(a.day, b.day, 2);
    LexLeConcat(ya, "-" + (ma + ("-" + da)), yb, "-" + (mb + ("-" + db)));
    if ya == yb {
      FixedDigitsInjective(a.year, b.year, 4);
      LexLeSameHead('-', ma + ("-" + da), mb + ("-" + db));
      LexLeConcat(ma, "-" + da, mb, "-" + db);
      if ma == mb {
        FixedDigitsInjective(a.month, b.month, 2);
        LexLeSameHead('-', da, db);
        if da == db {
          FixedDigitsInjective(a.day, b.day, 2);
        }
      }
    }
  }

  /** Distinct days with four-digit years have distinct keys. */
  lemma DateKeyInjective(a: Date, b: Date)
    requires ValidDate(a) && FourDigitYear(a) && ValidDate(b) && FourDigitYear(b)
    requires DateKey(a) == DateKey(b)
    ensures a == b
  {
    LexLeRefl(DateKey(a));
    DateKeyOrder(a, b);
    DateKeyOrder(b, a);
  }

  /** The keys of two different days of a trailing window differ. */
  lemma WindowKeysDistinct(today: Date, i: nat, j: nat)
    requires ValidDate(today) && i != j
    requires FourDigitYear(DaysBefore(today, i)) && FourDigitYear(DaysBefore(today, j))
    ensures DateKey(DaysBefore(today, i)) != DateKey(DaysBefore(today, j))
  {
    if i < j { DaysBeforeOrder(today, i, j); } else { DaysBeforeOrder(today, j, i); }
    if DateKey(DaysBefore(today, i)) == DateKey(DaysBefore(today, j)) {
      DateKeyInjective(DaysBefore(today, i), DaysBefore(today, j));
    }
  }
}
