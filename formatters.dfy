/** The display and API formatters of `src/utils/formatters.js`: currency
    strings, `YYYY-MM-DD` dates, the today-relative date helpers, percentages,
    lookup tables and compact large numbers. */
module Formatters {
  import opened Text
  import opened Calendar

  // ---------------------------------------------------------------------
  // formatCurrency
  // ---------------------------------------------------------------------

  /** The symbol table lookup `symbols[currency] || currency`. */
  function CurrencySymbol(currency: string): (symbol: string)
    ensures currency == "GBP" ==> symbol == "\U{A3}"
    ensures currency == "USD" ==> symbol == "$"
    ensures currency == "EUR" ==> symbol == "\U{20AC}"
    ensures currency !in {"GBP", "USD", "EUR"} ==> symbol == currency
  {
    if currency == "GBP" then "\U{A3}"
    else if currency == "USD" then "$"
    else if currency == "EUR" then "\U{20AC}"
    else currency
  }

  /** A whole number written with `,` between groups of three digits, as the
      en-GB locale writes it. */
  function Grouped(n: nat): (r: string)
    ensures |r| >= 1
  {
    if n < 1000 then NatToString(n)
    else Grouped(n / 1000) + "," + FixedDigits(n % 1000, 3)
  }

  /** Reads a digit string grouped in threes by commas back into its value. */
  function ParseGrouped(s: string): Option<nat>
    decreases |s|
  {
    if 1 <= |s| <= 3 && AllDigits(s) then Some(DigitsValue(s))
    else if |s| >= 5 && s[|s| - 4] == ',' && AllDigits(s[|s| - 3..]) then
      match ParseGrouped(s[..|s| - 4])
      case Some(h) => Some(h * 1000 + DigitsValue(s[|s| - 3..]))
      case None => None
    else None
  }

  lemma {:induction false} GroupedReadsBack(n: nat)
    ensures ParseGrouped(Grouped(n)) == Some(n)
  {
    if n < 1000 {
      NatToStringLength(n, 3);
    } else {
      var g := Grouped(n / 1000);
      var tail := FixedDigits(n % 1000, 3);
      var s := g + "," + tail;
      assert Pow10(3) == 1000;
      assert s[|s| - 4] == ',';
      assert s[|s| - 3..] == tail;
      assert s[..|s| - 4] == g;
      assert !AllDigits(s) by { assert !IsDigit(s[|s| - 4]); }
      GroupedReadsBack(n / 1000);
    }
  }

  /** `absAmount.toLocaleString('en-GB', {minimumFractionDigits: 2,
      maximumFractionDigits: 2})` for an amount of `pence` hundredths. */
  function Magnitude(pence: nat): (r: string)
    ensures |r| >= 4 && r[|r| - 3] == '.' && AllDigits(r[|r| - 2..])
  {
    var r := Grouped(pence / 100) + "." + FixedDigits(pence % 100, 2);
    assert r[|r| - 2..] == FixedDigits(pence % 100, 2);
    r
  }

  /** Reads a formatted magnitude back into hundredths. */
  function ParseMagnitude(s: string): Option<nat>
  {
    if |s| >= 4 && s[|s| - 3] == '.' && AllDigits(s[|s| - 2..]) then
      match ParseGrouped(s[..|s| - 3])
      case Some(units) => Some(units * 100 + DigitsValue(s[|s| - 2..]))
      case None => None
    else None
  }

  lemma MagnitudeReadsBack(pence: nat)
    ensures ParseMagnitude(Magnitude(pence)) == Some(pence)
  {
    var g := Grouped(pence / 100);
    var f := FixedDigits(pence % 100, 2);
    var s := g + "." + f;
    assert s[..|s| - 3] == g;
    assert s[|s| - 2..] == f;
    assert Pow10(2) == 100;
    GroupedReadsBack(pence / 100);
  }

  function Abs(x: int): nat
  {
    if x < 0 then -x else x
  }

  /** `formatCurrency(amount, currency)` for an amount given in pence. */
  function FormatCurrency(amount: int, currency: string): (r: string)
    ensures |r| >= |CurrencySymbol(currency)| + 4
  {
    var symbol := CurrencySymbol(currency);
    var formatted := Magnitude(Abs(amount));
    if amount < 0 then "-" + symbol + formatted else symbol + formatted
  }

  /** The formatted amount is a `-` exactly when the amount is negative, then
      the symbol, then the magnitude, which reads back as |amount|; the sign
      never follows the symbol. */
  lemma FormatCurrencyReadsBack(amount: int, currency: string)
    ensures var lead := (if amount < 0 then "-" else "") + CurrencySymbol(currency);
      var r := FormatCurrency(amount, currency);
      |lead| <= |r| && r[..|lead|] == lead && ParseMagnitude(r[|lead|..]) == Some(Abs(amount))
  {
    var lead := (if amount < 0 then "-" else "") + CurrencySymbol(currency);
    var r := FormatCurrency(amount, currency);
    assert r == lead + Magnitude(Abs(amount));
    assert r[|lead|..] == Magnitude(Abs(amount));
    MagnitudeReadsBack(Abs(amount));
  }

  /** A negative amount formats as `-` followed by the formatting of its
      magnitude. */
  lemma FormatCurrencyNegation(amount: int, currency: string)
    requires amount > 0
    ensures FormatCurrency(-amount, currency) == "-" + FormatCurrency(amount, currency)
  {
  }

  // ---------------------------------------------------------------------
  // formatDateForAPI and the Date constructor on date strings
  // ---------------------------------------------------------------------

  /** What `formatDateForAPI` may be handed: nothing (a falsy value), an
      Invalid Date, or a calendar day. */
  datatype DateArg = Missing | InvalidDate | Day(date: Date)

  predicate ValidArg(arg: DateArg)
  {
    arg.Day? ==> ValidDate(arg.date)
  }

  /** `formatDateForAPI(date)`: the year as `String(year)` (not padded), the
      month and day padded to two digits; `''` for a falsy argument and
      `NaN-NaN-NaN` for an Invalid Date. */
  function FormatDateForAPI(arg: DateArg): (r: string)
    requires ValidArg(arg)
    ensures arg.Missing? <==> r == ""
  {
    match arg
    case Missing => ""
    case InvalidDate => "NaN-NaN-NaN"
    case Day(d) => IntToString(d.year) + "-" + Pad2(d.month) + "-" + Pad2(d.day)
  }

  /** For a four-digit year the result is the ten-character extended calendar
      date of ISO 8601 (section 4.1.2.2 of ISO 8601:2004). */
  lemma FormatDateIso(d: Date)
    requires ValidDate(d) && 1000 <= d.year <= 9999
    ensures FormatDateForAPI(Day(d))
         == FixedDigits(d.year, 4) + ("-" + (FixedDigits(d.month, 2) + ("-" + FixedDigits(d.day, 2))))
    ensures |FormatDateForAPI(Day(d))| == 10
  {
    Regroup(IntToString(d.year), Pad2(d.month), Pad2(d.day));
    Pow10Values();
    NatToStringFixed(d.year, 4);
    Pad2Fixed(d.month);
    Pad2Fixed(d.day);
  }

  /** `new Date(s)` for the date-only form `YYYY-MM-DD` that date inputs
      produce; every other string is an Invalid Date. */
  function ParseDate(s: string): (r: DateArg)
    ensures ValidArg(r) && !r.Missing?
  {
    if |s| == 10 && s[4] == '-' && s[7] == '-'
       && AllDigits(s[..4]) && AllDigits(s[5..7]) && AllDigits(s[8..])
    then
      var d := Date(DigitsValue(s[..4]), DigitsValue(s[5..7]), DigitsValue(s[8..]));
      if ValidDate(d) then Day(d) else InvalidDate
    else InvalidDate
  }

  lemma Regroup(y: string, m: string, d: string)
    ensures y + "-" + m + "-" + d == y + ("-" + (m + ("-" + d)))
  {
  }

  /** The fields of a `YYYY-MM-DD` string sit at fixed positions. */
  lemma IsoFields(y: string, m: string, dd: string)
    requires |y| == 4 && |m| == 2 && |dd| == 2
    ensures var s := y + ("-" + (m + ("-" + dd)));
      |s| == 10 && s[4] == '-' && s[7] == '-' && s[..4] == y && s[5..7] == m && s[8..] == dd
  {
  }

  /** Formatting a day with a four-digit year and parsing the text back gives
      the same day. */
  lemma ParseFormattedDate(d: Date)
    requires ValidDate(d) && 1000 <= d.year <= 9999
    ensures ParseDate(FormatDateForAPI(Day(d))) == Day(d)
  {
    FormatDateIso(d);
    Pow10Values();
    var y, m, dd := FixedDigits(d.year, 4), FixedDigits(d.month, 2), FixedDigits(d.day, 2);
    IsoFields(y, m, dd);
    assert DigitsValue(y) == d.year && DigitsValue(m) == d.month && DigitsValue(dd) == d.day;
  }

  /** Parsing a date string whose year has no leading zero and formatting the
      day again gives back the same string. */
  lemma FormatParsedDate(s: string)
    requires ParseDate(s).Day? && ParseDate(s).date.year >= 1000
    ensures FormatDateForAPI(ParseDate(s)) == s
  {
    var d := ParseDate(s).date;
    var y, m, dd := s[..4], s[5..7], s[8..];
    assert d == Date(DigitsValue(y), DigitsValue(m), DigitsValue(dd));
    assert FixedDigits(d.year, 4) == y by { FixedDigitsOfDigits(y); }
    assert FixedDigits(d.month, 2) == m by { FixedDigitsOfDigits(m); }
    assert FixedDigits(d.day, 2) == dd by { FixedDigitsOfDigits(dd); }
    assert d.year <= 9999 by { DigitsValueBound(y); Pow10Values(); }
    assert FormatDateForAPI(Day(d)) == y + ("-" + (m + ("-" + dd))) by { FormatDateIso(d); }
    assert s == y + ("-" + (m + ("-" + dd))) by { DashSplit(s, "-"); }
  }

  /** A ten-character string with a one-character separator at positions 4
      and 7 is its three fields joined by that separator. */
  lemma DashSplit(s: string, sep: string)
    requires |s| == 10 && |sep| == 1 && s[4] == sep[0] && s[7] == sep[0]
    ensures s == s[..4] + (sep + (s[5..7] + (sep + s[8..])))
  {
    assert sep == [s[4]] == [s[7]];
  }

  /** A separator followed by a field and a rest compares field first. */
  lemma SeparatedFieldOrder(sep: string, x: string, rx: string, y: string, ry: string)
    requires |x| == |y|
    ensures StrLess(sep + (x + rx), sep + (y + ry)) <==> StrLess(x, y) || (x == y && StrLess(rx, ry))
    ensures sep + (x + rx) == sep + (y + ry) <==> x == y && rx == ry
  {
    StrLessConcat(sep, x + rx, sep, y + ry);
    StrLessIrreflexive(sep);
    StrLessConcat(x, rx, y, ry);
    ConcatEq(sep, x + rx, sep, y + ry);
    ConcatEq(x, rx, y, ry);
  }

  /** Three fields joined by a separator compare, and are equal, field by
      field when the fields have matching lengths. */
  lemma JoinedFieldsOrder(sep: string, ya: string, ma: string, da: string, yb: string, mb: string, db: string)
    requires |ya| == |yb| && |ma| == |mb| && |da| == |db|
    ensures StrLess(ya + (sep + (ma + (sep + da))), yb + (sep + (mb + (sep + db))))
        <==> StrLess(ya, yb) || (ya == yb && (StrLess(ma, mb) || (ma == mb && StrLess(da, db))))
    ensures ya + (sep + (ma + (sep + da))) == yb + (sep + (mb + (sep + db)))
        <==> ya == yb && ma == mb && da == db
  {
    var ra, rb := sep + (ma + (sep + da)), sep + (mb + (sep + db));
    StrLessConcat(ya, ra, yb, rb);
    ConcatEq(ya, ra, yb, rb);
    SeparatedFieldOrder(sep, ma, sep + da, mb, sep + db);
    StrLessConcat(sep, da, sep, db);
    ConcatEq(sep, da, sep, db);
    StrLessIrreflexive(sep);
  }

  /** On days with four-digit years, comparing the `YYYY-MM-DD` strings as
      JavaScript compares strings is the same as comparing the days; this is
      what lets the budget overlap test compare dates as strings. */
  lemma DateStringOrder(a: Date, b: Date)
    requires ValidDate(a) && 1000 <= a.year <= 9999
    requires ValidDate(b) && 1000 <= b.year <= 9999
    ensures StrLess(FormatDateForAPI(Day(a)), FormatDateForAPI(Day(b))) <==> Before(a, b)
    ensures FormatDateForAPI(Day(a)) == FormatDateForAPI(Day(b)) <==> a == b
  {
    FormatDateIso(a);
    FormatDateIso(b);
    Pow10Values();
    FixedDigitsOrder(a.year, b.year, 4);
    FixedDigitsOrder(a.month, b.month, 2);
    FixedDigitsOrder(a.day, b.day, 2);
    JoinedFieldsOrder("-", FixedDigits(a.year, 4), FixedDigits(a.month, 2), FixedDigits(a.day, 2),
                      FixedDigits(b.year, 4), FixedDigits(b.month, 2), FixedDigits(b.day, 2));
  }

  // ---------------------------------------------------------------------
  // getDaysAgo, getMonthStart, getMonthEnd (with today explicit)
  // ---------------------------------------------------------------------

  /** `getDaysAgo(days)`: today's date moved back `days` days with `setDate`. */
  method GetDaysAgo(today: Date, days: int) returns (s: string)
    requires ValidDate(today)
    ensures s == FormatDateForAPI(Day(AddDays(today, -days)))
  {
    var date := today;
    date := SetDate(date, date.day - days);
    SetDateBack(today, days);
    s := FormatDateForAPI(Day(date));
  }

  /** `getMonthStart()`: the first day of today's month. */
  method GetMonthStart(today: Date) returns (s: string)
    requires ValidDate(today)
    ensures s == FormatDateForAPI(Day(Date(today.year, today.month, 1)))
  {
    var date := today;
    date := SetDate(date, 1);
    MakeDayInMonth(today.year, today.month, 1);
    s := FormatDateForAPI(Day(date));
  }

  /** `getMonthEnd()` as written: `setMonth(getMonth() + 1)` on today's date,
      then `setDate(0)`. The day of the month is kept while the month moves,
      so a day that the next month lacks overflows past it. */
  method GetMonthEnd(today: Date) returns (s: string)
    requires ValidDate(today)
    ensures s == FormatDateForAPI(Day(MonthEndAfterShift(today, 1)))
  {
    var date := today;
    date := SetMonth(date, date.month - 1 + 1);
    date := SetDate(date, 0);
    SetMonthThenDayZero(today, 1);
    s := FormatDateForAPI(Day(date));
  }

  /** The as-written `getMonthEnd` yields the last day of today's month
      exactly when today's day of the month exists in the next month. */
  lemma MonthEndAfterOneMonth(today: Date)
    requires ValidDate(today)
    ensures MonthEndAfterShift(today, 1) == LastDayOfMonth(today.year, today.month)
        <==> today.day <= DaysInMonth(ShiftMonth(today.year, today.month, 1).0, ShiftMonth(today.year, today.month, 1).1)
  {
    var n := ShiftMonth(today.year, today.month, 1);
    assert ShiftMonth(today.year, today.month, 0) == (today.year, today.month);
    assert n != (today.year, today.month);
  }

  /** On 31 January the as-written `getMonthEnd` gives the last day of
      February (29 February in 2024) instead of 31 January. */
  lemma GetMonthEndOnJanuary31(y: int)
    ensures MonthEndAfterShift(Date(y, 1, 31), 1) == Date(y, 2, DaysInMonth(y, 2))
    ensures MonthEndAfterShift(Date(y, 1, 31), 1) != LastDayOfMonth(y, 1)
    ensures DaysInMonth(2024, 2) == 29
  {
    assert ShiftMonth(y, 1, 1) == (y, 2);
    MonthEndAfterOneMonth(Date(y, 1, 31));
  }

  /** `getMonthEnd()` with the day first set to 1, so that `setMonth` cannot
      overflow: always the last day of today's month. */
  method GetMonthEndCorrected(today: Date) returns (s: string)
    requires ValidDate(today)
    ensures s == FormatDateForAPI(Day(LastDayOfMonth(today.year, today.month)))
  {
    var date := today;
    date := SetDate(date, 1);
    MakeDayInMonth(today.year, today.month, 1);
    var first := date;
    date := SetMonth(date, date.month - 1 + 1);
    date := SetDate(date, 0);
    SetMonthThenDayZero(first, 1);
    MonthEndAfterOneMonth(first);
    s := FormatDateForAPI(Day(date));
  }

  // ---------------------------------------------------------------------
  // Number.prototype.toFixed, formatPercentage, formatLargeNumber
  // ---------------------------------------------------------------------

  function AbsReal(x: real): (r: real)
    ensures r >= 0.0 && (r == x || r == -x)
  {
    if x < 0.0 then -x else x
  }

  /** The integer nearest to `x`, the larger one on a tie. */
  function RoundHalfUp(x: real): (n: int)
    ensures x - 0.5 < n as real <= x + 0.5
  {
    (x + 0.5).Floor
  }

  /** The `n` that `x.toFixed(f)` prints: |x| scaled by 10^f and rounded. */
  function ScaledDigits(x: real, f: nat): nat
  {
    RoundHalfUp(MulPow10(AbsReal(x), f))
  }

  /** The value `x.toFixed(f)` denotes. */
  function Rounded(x: real, f: nat): real
  {
    Signed(x < 0.0, DivPow10(ScaledDigits(x, f) as real, f))
  }

  /** A whole part and `f` fraction digits, joined by a point (no point when
      `f` is 0). */
  function FixedPoint(whole: nat, fraction: nat, f: nat): (r: string)
    ensures |r| > 0 && IsDigit(r[0])
  {
    if f == 0 then NatToString(whole)
    else NatToString(whole) + ("." + FixedDigits(fraction, f))
  }

  /** `x.toFixed(f)`: a `-` for a negative `x` (even when the rounded value is
      zero), then the rounded magnitude with exactly `f` fraction digits. */
  function ToFixed(x: real, f: nat): (r: string)
    ensures |r| > 0
  {
    var n := ScaledDigits(x, f);
    MinusIf(x < 0.0) + FixedPoint(WholeUnits(n, f), FractionUnits(n, f), f)
  }

  /** The digits of `n` before the last `f`: n / 10^f. */
  function WholeUnits(n: nat, f: nat): (q: nat)
    ensures q as real + DivPow10(FractionUnits(n, f) as real, f) == DivPow10(n as real, f)
  {
    var p := Pow10(f);
    DivModParts(n, p);
    SplitAt(n, n / p, n % p, p, f);
    n / p
  }

  /** The last `f` digits of `n`: n mod 10^f. */
  function FractionUnits(n: nat, f: nat): (m: nat)
    ensures m < Pow10(f)
  {
    var p := Pow10(f);
    DivModParts(n, p);
    n % p
  }

  function Signed(negative: bool, v: real): real
  {
    if negative then -v else v
  }

  function MinusIf(negative: bool): string
  {
    if negative then "-" else ""
  }

  lemma Reassoc(a: string, p: string, b: string, tail: string)
    ensures (a + (p + b)) + tail == a + (p + (b + tail))
  {
  }

  lemma AppendAssoc(a: string, b: string, c: string)
    ensures (a + b) + c == a + (b + c)
  {
  }

  /** The printed value is within half a unit of the last printed digit of `x`. */
  lemma RoundedIsClose(x: real, f: nat)
    ensures x - DivPow10(0.5, f) <= Rounded(x, f) <= x + DivPow10(0.5, f)
  {
    var a := AbsReal(x);
    var y := MulPow10(a, f);
    var n := ScaledDigits(x, f) as real;
    assert y - 0.5 <= n <= y + 0.5;
    DivPow10Monotone(y + -0.5, n, f);
    DivPow10Monotone(n, y + 0.5, f);
    DivPow10Add(y, -0.5, f);
    DivPow10Add(y, 0.5, f);
    DivPow10Add(0.5, -0.5, f);
    assert DivPow10(0.0, f) == 0.0 by { DivPow10Add(0.0, 0.0, f); }
    DivMulPow10(a, f);
  }

  lemma DivModParts(n: nat, p: nat)
    requires p > 0
    ensures n == (n / p) * p + n % p && n / p >= 0 && 0 <= n % p < p
  {
  }

  lemma SplitAt(n: nat, q: int, m: int, p: nat, f: nat)
    requires p == Pow10(f) && q == n / p && m == n % p
    ensures q as real + DivPow10(m as real, f) == DivPow10(n as real, f)
  {
    var w := n - m;
    assert w == q * Pow10(f) && q >= 0 by { DivModParts(n, p); }
    var wr, mr := w as real, m as real;
    assert DivPow10(wr + mr, f) == DivPow10(wr, f) + DivPow10(mr, f) by { DivPow10Add(wr, mr, f); }
    assert DivPow10(wr, f) == q as real by { DivPow10Whole(q, f); }
    assert wr + mr == n as real;
  }

  /** The unsigned parser reads a whole part and fraction digits back. */
  lemma FixedPointUnsigned(whole: nat, fraction: nat, f: nat, tail: string)
    requires fraction < Pow10(f)
    requires tail == [] || (!IsDigit(tail[0]) && tail[0] != '.')
    ensures ParseUnsigned(FixedPoint(whole, fraction, f) + tail)
         == Some(whole as real + DivPow10(fraction as real, f))
  {
    if f == 0 {
      WholeReadsBack(whole, tail);
    } else {
      PointReadsBack(whole, fraction, f, tail);
    }
  }

  lemma WholeReadsBack(whole: nat, tail: string)
    requires tail == [] || (!IsDigit(tail[0]) && tail[0] != '.')
    ensures ParseUnsigned(NatToString(whole) + tail) == Some(whole as real)
  {
    var a := NatToString(whole);
    assert ParseUnsigned(a + tail) == Some(DecimalValue(a, "")) by { ParseUnsignedWhole(a, tail); }
    assert DecimalValue(a, "") == whole as real;
  }

  lemma PointReadsBack(whole: nat, fraction: nat, f: nat, tail: string)
    requires 0 < f && fraction < Pow10(f)
    requires tail == [] || (!IsDigit(tail[0]) && tail[0] != '.')
    ensures ParseUnsigned(FixedPoint(whole, fraction, f) + tail)
         == Some(whole as real + DivPow10(fraction as real, f))
  {
    var a, b := NatToString(whole), FixedDigits(fraction, f);
    assert FixedPoint(whole, fraction, f) == a + ("." + b);
    assert (a + ("." + b)) + tail == a + ("." + (b + tail)) by { Reassoc(a, ".", b, tail); }
    assert ParseUnsigned(a + ("." + (b + tail))) == Some(DecimalValue(a, b)) by {
      ParseUnsignedPoint(a, b, tail);
    }
    DecimalValueSplit(a, b);
    assert DigitsValue(b) == fraction && |b| == f;
  }

  /** Reading a fixed-point rendering back with `parseFloat`, even when a
      suffix that cannot continue the number follows it, gives its value. */
  lemma FixedPointReadsBack(negative: bool, whole: nat, fraction: nat, f: nat, tail: string)
    requires fraction < Pow10(f)
    requires tail == [] || (!IsDigit(tail[0]) && tail[0] != '.')
    ensures ParseFloat(MinusIf(negative) + FixedPoint(whole, fraction, f) + tail)
         == Some(Signed(negative, whole as real + DivPow10(fraction as real, f)))
  {
    FixedPointUnsigned(whole, fraction, f, tail);
    SignedReadsBack(negative, FixedPoint(whole, fraction, f), tail, whole as real + DivPow10(fraction as real, f));
  }

  /** An optional minus sign before an unsigned number negates its value. */
  lemma SignedReadsBack(negative: bool, u: string, tail: string, v: real)
    requires |u| > 0 && IsDigit(u[0]) && ParseUnsigned(u + tail) == Some(v)
    ensures ParseFloat(MinusIf(negative) + u + tail) == Some(Signed(negative, v))
  {
    var w := u + tail;
    assert w[0] == u[0];
    assert MinusIf(negative) + u + tail == MinusIf(negative) + w by {
      AppendAssoc(MinusIf(negative), u, tail);
    }
    if negative {
      assert ParseFloat("-" + w) == Some(-v) by { ParseFloatSigned(w, v); }
    } else {
      assert MinusIf(negative) + w == w;
      assert ParseFloat(w) == Some(v) by { ParseFloatSigned(w, v); }
    }
  }

  /** Reading `x.toFixed(f)` back with `parseFloat`, even when a suffix that
      cannot continue the number follows it, gives the rounded value. */
  lemma ToFixedReadsBack(x: real, f: nat, tail: string)
    requires tail == [] || (!IsDigit(tail[0]) && tail[0] != '.')
    ensures ParseFloat(ToFixed(x, f) + tail) == Some(Rounded(x, f))
  {
    var n := ScaledDigits(x, f);
    var q, m := WholeUnits(n, f), FractionUnits(n, f);
    assert ToFixed(x, f) == MinusIf(x < 0.0) + FixedPoint(q, m, f);
    assert q as real + DivPow10(m as real, f) == DivPow10(n as real, f);
    FixedPointReadsBack(x < 0.0, q, m, f, tail);
  }

  /** `formatPercentage(value, decimals)`: `'0%'` for null or undefined,
      otherwise `value.toFixed(decimals)` followed by `%`. */
  function FormatPercentage(value: Option<real>, decimals: nat): (r: string)
    ensures value.None? ==> r == "0%"
    ensures |r| >= 2 && r[|r| - 1] == '%'
  {
    match value
    case None => "0%"
    case Some(v) => ToFixed(v, decimals) + "%"
  }

  /** A formatted percentage reads back as the rounded value. */
  lemma FormatPercentageReadsBack(v: real, decimals: nat)
    ensures ParseFloat(FormatPercentage(Some(v), decimals)) == Some(Rounded(v, decimals))
  {
    ToFixedReadsBack(v, decimals, "%");
  }

  /** `formatLargeNumber(num)` for a whole number: one decimal and `M` from a
      million, one decimal and `K` from a thousand, plain digits below. */
  function FormatLargeNumber(num: int): (r: string)
    ensures |r| > 0
  {
    if num >= 1000000 then Compact(num as real / 1000000.0, "M")
    else if num >= 1000 then Compact(num as real / 1000.0, "K")
    else IntToString(num)
  }

  /** `x.toFixed(1)` followed by a unit letter. */
  function Compact(x: real, unit: string): (r: string)
    ensures |r| > |unit| && r[|r| - |unit|..] == unit
  {
    ToFixed(x, 1) + unit
  }

  /** Read back with `parseFloat`, a compact form gives the scaled value
      rounded to one decimal: the unit letter stops the parser. */
  lemma CompactReadsBack(x: real, unit: string)
    requires |unit| > 0 && !IsDigit(unit[0]) && unit[0] != '.'
    ensures ParseFloat(Compact(x, unit)) == Some(Rounded(x, 1))
  {
    ToFixedReadsBack(x, 1, unit);
  }

  /** The suffix is `M` exactly from a million and `K` exactly from a
      thousand up to a million; smaller numbers end in a digit. */
  lemma FormatLargeNumberSuffix(num: int)
    ensures var r := FormatLargeNumber(num);
      (r[|r| - 1] == 'M' <==> num >= 1000000) &&
      (r[|r| - 1] == 'K' <==> 1000 <= num < 1000000) &&
      (num < 1000 ==> IsDigit(r[|r| - 1]))
  {
    if num < 1000 {
      var d := NatToString(Abs(num));
      assert IsDigit(d[|d| - 1]);
      if num < 0 {
        assert FormatLargeNumber(num) == "-" + d;
      }
    }
  }

  /** From a million up, `formatLargeNumber` reads back with `parseFloat`
      as the number of millions rounded to one decimal. */
  lemma FormatLargeNumberMillions(num: int)
    requires num >= 1000000
    ensures ParseFloat(FormatLargeNumber(num)) == Some(Rounded(num as real / 1000000.0, 1))
  {
    var x := num as real / 1000000.0;
    assert FormatLargeNumber(num) == Compact(x, "M");
    assert ParseFloat(Compact(x, "M")) == Some(Rounded(x, 1)) by { CompactReadsBack(x, "M"); }
  }

  /** From a thousand up to a million, `formatLargeNumber` reads back with
      `parseFloat` as the number of thousands rounded to one decimal. */
  lemma FormatLargeNumberThousands(num: int)
    requires 1000 <= num < 1000000
    ensures ParseFloat(FormatLargeNumber(num)) == Some(Rounded(num as real / 1000.0, 1))
  {
    var x := num as real / 1000.0;
    assert FormatLargeNumber(num) == Compact(x, "K");
    assert ParseFloat(Compact(x, "K")) == Some(Rounded(x, 1)) by { CompactReadsBack(x, "K"); }
  }

  /** Below a thousand, `formatLargeNumber` reads back as the number itself. */
  lemma FormatLargeNumberSmall(num: int)
    requires num < 1000
    ensures ParseFloat(FormatLargeNumber(num)) == Some(num as real)
  {
    IntToStringReadsBack(num);
  }

  /** 999999 is shown as `1000.0K`: the `K` branch rounds up past the
      million threshold without switching to `M`. */
  lemma FormatLargeNumberJustBelowMillion()
    ensures FormatLargeNumber(999999) == "1000.0K"
  {
    var x := 999999 as real / 1000.0;
    assert x == 999.999;
    assert MulPow10(AbsReal(x), 1) == 9999.99;
    assert ScaledDigits(x, 1) == 10000;
    assert WholeUnits(10000, 1) == 1000 && FractionUnits(10000, 1) == 0 by {
      assert Pow10(1) == 10;
    }
    assert NatToString(1000) == "1000";
    assert FixedDigits(0, 1) == "0";
    assert ToFixed(x, 1) == "1000.0";
  }

  // ---------------------------------------------------------------------
  // Lookup tables and percentage change
  // ---------------------------------------------------------------------

  /** `formatAccountType(type)`: the four known account types get their
      display names; anything else is shown as it is. */
  function FormatAccountType(accountType: string): (r: string)
    ensures accountType == "current" ==> r == "Current Account"
    ensures accountType == "savings" ==> r == "Savings Account"
    ensures accountType == "isa" ==> r == "ISA"
    ensures accountType == "credit" ==> r == "Credit Card"
    ensures accountType !in {"current", "savings", "isa", "credit"} ==> r == accountType
  {
    if accountType == "current" then "Current Account"
    else if accountType == "savings" then "Savings Account"
    else if accountType == "isa" then "ISA"
    else if accountType == "credit" then "Credit Card"
    else accountType
  }

  /** `getTransactionTypeColor(type)`: a colour per transaction type, and
      `default` for anything else. */
  function GetTransactionTypeColor(transactionType: string): (r: string)
    ensures transactionType == "income" ==> r == "success"
    ensures transactionType == "expense" ==> r == "error"
    ensures transactionType == "transfer" ==> r == "info"
    ensures transactionType !in {"income", "expense", "transfer"} ==> r == "default"
  {
    if transactionType == "income" then "success"
    else if transactionType == "expense" then "error"
    else if transactionType == "transfer" then "info"
    else "default"
  }

  /** `calculatePercentageChange(current, previous)`: 0 when there is no
      previous value to compare with; otherwise the change as a percentage of
      the size of the previous value, positive exactly when the value grew. */
  function CalculatePercentageChange(current: real, previous: real): (r: real)
    ensures previous == 0.0 ==> r == 0.0
    ensures previous != 0.0 ==> r * AbsReal(previous) == (current - previous) * 100.0
    ensures previous != 0.0 ==> (r > 0.0 <==> current > previous) && (r == 0.0 <==> current == previous)
  {
    if previous == 0.0 then 0.0
    else
      var p := AbsReal(previous);
      var r := ((current - previous) / p) * 100.0;
      assert r * p == (current - previous) * 100.0;
      r
  }
}
