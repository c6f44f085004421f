/** Calendar dates of years 0 to 9999 and their ISO text, the full-date form of
    section 5.6 of RFC 3339. */
module Calendar {
  import opened Ordering
  import opened Wrappers

  datatype Date = Date(year: nat, month: nat, day: nat)

  predicate IsLeap(year: nat) {
    year % 4 == 0 && (year % 100 != 0 || year % 400 == 0)
  }

  function DaysInMonth(year: nat, month: nat): (n: nat)
    ensures 1 <= month <= 12 ==> 28 <= n <= 31
  {
    if month == 2 then (if IsLeap(year) then 29 else 28)
    else if month == 4 || month == 6 || month == 9 || month == 11 then 30
    else 31
  }

  predicate ValidDate(d: Date) {
    d.year <= 9999 && 1 <= d.month <= 12 && 1 <= d.day <= DaysInMonth(d.year, d.month)
  }

  predicate DateLt(a: Date, b: Date) {
    || a.year < b.year
    || (a.year == b.year && a.month < b.month)
    || (a.year == b.year && a.month == b.month && a.day < b.day)
  }

  function Pred(d: Date): Option<Date> {
    if d.day > 1 then Some(Date(d.year, d.month, d.day - 1))
    else if d.month > 1 then Some(Date(d.year, d.month - 1, DaysInMonth(d.year, d.month - 1)))
    else if d.year > 0 then Some(Date(d.year - 1, 12, 31))
    else None
  }

  function Succ(d: Date): Date {
    if d.day < DaysInMonth(d.year, d.month) then Date(d.year, d.month, d.day + 1)
    else if d.month < 12 then Date(d.year, d.month + 1, 1)
    else Date(d.year + 1, 1, 1)
  }

  /** The predecessor is the latest earlier date, and the successor undoes it. */
  lemma PredIsPrevious(d: Date)
    requires ValidDate(d) && Pred(d).Some?
    ensures ValidDate(Pred(d).value) && DateLt(Pred(d).value, d) && Succ(Pred(d).value) == d
    ensures forall e | ValidDate(e) && DateLt(e, d) :: e == Pred(d).value || DateLt(e, Pred(d).value)
  {
  }

  /** The leap years before year `n`. */
  function LeapYears(n: nat): nat {
    if n == 0 then 0 else LeapYears(n - 1) + if IsLeap(n - 1) then 1 else 0
  }

  /** Up to a year: every fourth, without the centuries that are no multiple of 400, and year 0. */
  lemma {:induction false} LeapYearsCounted(year: nat)
    ensures LeapYears(year + 1) == year / 4 - year / 100 + year / 400 + 1
  {
    if year > 0 {
      LeapYearsCounted(year - 1);
      Fourths(year);
      Hundredths(year);
      FourHundredths(year);
    }
  }

  lemma Fourths(n: nat)
    requires n > 0
    ensures n / 4 == (n - 1) / 4 + if n % 4 == 0 then 1 else 0
  {
  }

  lemma Hundredths(n: nat)
    requires n > 0
    ensures n / 100 == (n - 1) / 100 + if n % 100 == 0 then 1 else 0
    ensures n % 100 == 0 ==> n % 4 == 0
  {
    var q, r := n / 100, n % 100;
    Hundreds(n, q, r);
    if r == 0 {
      Hundreds(n - 1, q - 1, 99);
      Fours(n, 25 * q);
    } else {
      Hundreds(n - 1, q, r - 1);
    }
  }

  lemma FourHundredths(n: nat)
    requires n > 0
    ensures n / 400 == (n - 1) / 400 + if n % 400 == 0 then 1 else 0
    ensures n % 400 == 0 ==> n % 100 == 0
  {
    var q, r := n / 400, n % 400;
    FourHundreds(n, q, r);
    if r == 0 {
      FourHundreds(n - 1, q - 1, 399);
      Hundreds(n, 4 * q, 0);
    } else {
      FourHundreds(n - 1, q, r - 1);
    }
  }

  lemma Fours(n: nat, q: nat)
    requires n == 4 * q
    ensures n % 4 == 0
  {
  }

  lemma Hundreds(n: nat, q: int, r: nat)
    requires (n == 100 * q + r || (q == n / 100 && r == n % 100)) && r < 100
    ensures n == 100 * q + r && n / 100 == q && n % 100 == r
  {
  }

  lemma FourHundreds(n: nat, q: int, r: nat)
    requires (n == 400 * q + r || (q == n / 400 && r == n % 400)) && r < 400
    ensures n == 400 * q + r && n / 400 == q && n % 400 == r
  {
  }

  lemma MonthLengths(year: nat, month: nat)
    requires 1 <= month <= 12
    ensures var february := 28 + LeapYears(year + 1) - LeapYears(year);
            DaysInMonth(year, month) == [31, february, 31, 30, 31, 30, 31, 31, 30, 31, 30, 31][month - 1]
  {
  }

  // ------------------------------------------------------------ ISO text

  const DIGITS := "0123456789"

  function Pad(n: nat, width: nat): (s: string)
    ensures |s| == width
  {
    if width == 0 then "" else Pad(n / 10, width - 1) + [DIGITS[n % 10]]
  }

  function Iso(d: Date): string {
    Pad(d.year, 4) + "-" + Pad(d.month, 2) + "-" + Pad(d.day, 2)
  }

  function Pow10(width: nat): nat {
    if width == 0 then 1 else 10 * Pow10(width - 1)
  }

  lemma {:induction false} PadOrders(a: nat, b: nat, width: nat)
    requires a < b < Pow10(width)
    ensures StrLt(Pad(a, width), Pad(b, width))
  {
    assert a % 10 < 10 && b % 10 < 10;
    if a / 10 < b / 10 {
      PadOrders(a / 10, b / 10, width - 1);
      StrLtSuffix(Pad(a / 10, width - 1), Pad(b / 10, width - 1), [DIGITS[a % 10]], [DIGITS[b % 10]]);
    } else {
      assert a / 10 == b / 10 && a % 10 < b % 10;
      assert DIGITS[a % 10] < DIGITS[b % 10] by { DigitsAscend(a % 10, b % 10); }
      StrLtPrefix(Pad(a / 10, width - 1), [DIGITS[a % 10]], [DIGITS[b % 10]]);
    }
  }

  lemma DigitsAscend(a: nat, b: nat)
    requires a < b < 10
    ensures DIGITS[a] < DIGITS[b]
  {
    assert DIGITS[0] == '0' && DIGITS[1] == '1' && DIGITS[2] == '2' && DIGITS[3] == '3' && DIGITS[4] == '4';
    assert DIGITS[5] == '5' && DIGITS[6] == '6' && DIGITS[7] == '7' && DIGITS[8] == '8' && DIGITS[9] == '9';
  }

  lemma IsoAscends(a: Date, b: Date)
    requires ValidDate(a) && ValidDate(b) && DateLt(a, b)
    ensures StrLt(Iso(a), Iso(b))
  {
    hide Pad, StrLt;
    assert Pow10(2) == 100 && Pow10(4) == 10000;
    var (ma, mb) := (Pad(a.month, 2), Pad(b.month, 2));
    var (da, db) := (Pad(a.day, 2), Pad(b.day, 2));
    var ra, rb := "-" + ma + "-" + da, "-" + mb + "-" + db;
    assert Iso(a) == Pad(a.year, 4) + ra && Iso(b) == Pad(b.year, 4) + rb;
    if a.year < b.year {
      PadOrders(a.year, b.year, 4);
      StrLtSuffix(Pad(a.year, 4), Pad(b.year, 4), ra, rb);
    } else {
      if a.month < b.month {
        PadOrders(a.month, b.month, 2);
        StrLtSuffix(ma, mb, "-" + da, "-" + db);
        StrLtPrefix("-", ma + ("-" + da), mb + ("-" + db));
        assert ra == "-" + (ma + ("-" + da)) && rb == "-" + (mb + ("-" + db));
      } else {
        PadOrders(a.day, b.day, 2);
        StrLtPrefix("-" + ma + "-", da, db);
      }
      StrLtPrefix(Pad(a.year, 4), ra, rb);
    }
  }

  /** Comparing the texts is comparing the dates, and the text determines the date. */
  lemma IsoOrderIsDateOrder(a: Date, b: Date)
    requires ValidDate(a) && ValidDate(b)
    ensures StrLt(Iso(a), Iso(b)) <==> DateLt(a, b)
    ensures Iso(a) == Iso(b) <==> a == b
  {
    StrTrichotomy(Iso(a), Iso(a));
    if DateLt(a, b) {
      IsoAscends(a, b);
    } else if DateLt(b, a) {
      IsoAscends(b, a);
      if StrLt(Iso(a), Iso(b)) { StrTransitive(Iso(a), Iso(b), Iso(a)); }
    }
  }
}
