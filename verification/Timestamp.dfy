/** The 26-character timestamp stamped on every message: printing, parsing back, and ordering. */
module Timestamp {
  import opened Basics

  const STAMP_LENGTH: nat := 26

  /** First nanosecond of the year 10000, counted from 1970. */
  const END_OF_9999: nat := 253_402_300_800_000_000_000

  // ---------------------------------------------------------------- decimal text

  function Digit(n: nat): char
    requires n < 10
  {
    "0123456789"[n]
  }

  function Value(c: char): nat {
    if '0' <= c <= '9' then c as int - '0' as int else 0
  }

  function Pow10(w: nat): nat { if w == 0 then 1 else 10 * Pow10(w - 1) }

  /** The last `w` decimal digits of `n`, padded with zeros (`setw` and `setfill`). */
  function Decimal(w: nat, n: nat): (r: string)
    ensures |r| == w
  {
    if w == 0 then "" else Decimal(w - 1, n / 10) + [Digit(n % 10)]
  }

  function Number(text: string): nat {
    if text == "" then 0 else 10 * Number(text[..|text| - 1]) + Value(text[|text| - 1])
  }

  lemma {:induction false} DecimalRoundTrip(w: nat, n: nat)
    requires n < Pow10(w)
    ensures Number(Decimal(w, n)) == n
  {
    if w > 0 {
      DecimalRoundTrip(w - 1, n / 10);
      var text := Decimal(w, n);
      assert text[..w - 1] == Decimal(w - 1, n / 10);
    }
  }

  // ---------------------------------------------------------------- calendar

  predicate Leap(y: nat) { y % 4 == 0 && (y % 100 != 0 || y % 400 == 0) }

  function YearLength(y: nat): nat { if Leap(y) then 366 else 365 }

  function MonthLength(y: nat, m: nat): nat {
    if m == 2 then (if Leap(y) then 29 else 28)
    else if m == 4 || m == 6 || m == 9 || m == 11 then 30 else 31
  }

  /** Broken-down time as `gmtime` returns it (with the full year and months from 1). */
  datatype Civil = Civil(year: nat, month: nat, day: nat, hour: nat, minute: nat, second: nat)

  /** The year a day belongs to, and the day's number in it. */
  function SplitYears(days: nat, y: nat): (r: (nat, nat))
    ensures y <= r.0 && r.1 < YearLength(r.0)
    decreases days
  {
    if days < YearLength(y) then (y, days) else SplitYears(days - YearLength(y), y + 1)
  }

  function SplitMonths(day: nat, y: nat, m: nat): (r: (nat, nat))
    requires 1 <= m <= 12
    ensures m <= r.0 <= 12
    decreases 12 - m
  {
    if m == 12 || day < MonthLength(y, m) then (m, day) else SplitMonths(day - MonthLength(y, m), y, m + 1)
  }

  function GmTime(secs: nat): Civil {
    var (year, yday) := SplitYears(secs / 86400, 1970);
    var (month, mday) := SplitMonths(yday, year, 1);
    var rest := secs % 86400;
    Civil(year, month, mday + 1, rest / 3600, rest / 60 % 60, rest % 60)
  }

  /** Day of the year, from 0. */
  function YearDay(t: Civil): int
    requires 1 <= t.month <= 13
  {
    DaysBeforeMonth(t.year, t.month) + t.day - 1
  }

  function DaysBeforeMonth(y: nat, m: nat): nat
    requires 1 <= m <= 13
  {
    if m == 1 then 0 else DaysBeforeMonth(y, m - 1) + MonthLength(y, m - 1)
  }

  /** POSIX, "Seconds Since the Epoch": the closed formula over tm_year = year - 1900 and tm_yday. */
  function SecondsSinceEpoch(t: Civil): int
    requires 1 <= t.month <= 13
  {
    var tmYear := t.year - 1900;
    t.second + t.minute * 60 + t.hour * 3600 + YearDay(t) * 86400
    + (tmYear - 70) * 31536000 + ((tmYear - 69) / 4) * 86400
    - ((tmYear - 1) / 100) * 86400 + ((tmYear + 299) / 400) * 86400
  }

  /** Days from 1970 to the start of a year, by the same formula. */
  function DaysBeforeYear(y: nat): int {
    365 * (y - 1970) + (y - 1969) / 4 - (y - 1901) / 100 + (y - 1601) / 400
  }

  lemma NextFourth(y: nat)
    requires 1970 <= y
    ensures (y - 1968) / 4 == (y - 1969) / 4 + (if y % 4 == 0 then 1 else 0)
  {}

  lemma NextCentury(y: nat)
    requires 1970 <= y
    ensures (y - 1900) / 100 == (y - 1901) / 100 + (if y % 100 == 0 then 1 else 0)
  {}

  lemma NextFourCenturies(y: nat)
    requires 1970 <= y
    ensures (y - 1600) / 400 == (y - 1601) / 400 + (if y % 400 == 0 then 1 else 0)
  {}

  lemma Multiples(y: nat)
    ensures y % 100 == 0 ==> y % 4 == 0
    ensures y % 400 == 0 ==> y % 100 == 0
  {
    if y % 100 == 0 { assert y == 4 * (25 * (y / 100)); }
    if y % 400 == 0 { assert y == 100 * (4 * (y / 400)); }
  }

  lemma LeapRule(y: nat)
    ensures YearLength(y) == 365 + (if y % 4 == 0 then 1 else 0) - (if y % 100 == 0 then 1 else 0) + (if y % 400 == 0 then 1 else 0)
  {
    Multiples(y);
  }

  lemma NextYear(y: nat)
    requires 1970 <= y
    ensures DaysBeforeYear(y + 1) == DaysBeforeYear(y) + YearLength(y)
  {
    NextFourth(y);
    NextCentury(y);
    NextFourCenturies(y);
    LeapRule(y);
  }

  lemma {:induction false} SplitYearsRight(days: nat, y: nat)
    requires 1970 <= y
    ensures var r := SplitYears(days, y); DaysBeforeYear(r.0) + r.1 == DaysBeforeYear(y) + days
    decreases days
  {
    if days >= YearLength(y) {
      NextYear(y);
      SplitYearsRight(days - YearLength(y), y + 1);
    }
  }

  lemma {:induction false} SplitMonthsRight(day: nat, y: nat, m: nat)
    requires 1 <= m <= 12 && DaysBeforeMonth(y, m) + day < YearLength(y)
    ensures var r := SplitMonths(day, y, m);
            DaysBeforeMonth(y, r.0) + r.1 == DaysBeforeMonth(y, m) + day && r.1 < MonthLength(y, r.0)
    decreases 12 - m
  {
    YearIsMonths(y);
    if m < 12 && day >= MonthLength(y, m) { SplitMonthsRight(day - MonthLength(y, m), y, m + 1); }
  }

  lemma YearIsMonths(y: nat)
    ensures DaysBeforeMonth(y, 13) == YearLength(y) && DaysBeforeMonth(y, 12) + 31 == YearLength(y)
  {
    assert DaysBeforeMonth(y, 2) == 31;
    assert DaysBeforeMonth(y, 3) == 31 + MonthLength(y, 2);
    assert DaysBeforeMonth(y, 5) == DaysBeforeMonth(y, 3) + 61;
    assert DaysBeforeMonth(y, 7) == DaysBeforeMonth(y, 5) + 61;
    assert DaysBeforeMonth(y, 9) == DaysBeforeMonth(y, 7) + 62;
    assert DaysBeforeMonth(y, 11) == DaysBeforeMonth(y, 9) + 61;
    assert DaysBeforeMonth(y, 13) == DaysBeforeMonth(y, 11) + 61;
  }

  lemma HourAndMinute(x: nat)
    ensures x / 60 == x / 3600 * 60 + x / 60 % 60 && x == x / 60 * 60 + x % 60
  {}

  lemma DateRight(secs: nat)
    ensures var t := GmTime(secs);
            && 1970 <= t.year && 1 <= t.month <= 12 && 1 <= t.day <= MonthLength(t.year, t.month)
            && DaysBeforeYear(t.year) + YearDay(t) == secs / 86400
  {
    var (year, yday) := SplitYears(secs / 86400, 1970);
    SplitYearsRight(secs / 86400, 1970);
    SplitMonthsRight(yday, year, 1);
  }

  /** `gmtime`, which counts years and months one by one, inverts the closed POSIX formula. */
  lemma GmTimeInvertsPosix(secs: nat)
    ensures 1 <= GmTime(secs).month <= 12 && SecondsSinceEpoch(GmTime(secs)) == secs
    ensures var t := GmTime(secs);
            1970 <= t.year && 1 <= t.day <= MonthLength(t.year, t.month) && t.hour < 24 && t.minute < 60 && t.second < 60
  {
    DateRight(secs);
    HourAndMinute(secs % 86400);
  }

  // ---------------------------------------------------------------- texts made of fixed-width fields

  datatype Field = Field(width: nat, value: nat, separator: string) {
    predicate Fits() { value < Pow10(width) }
  }

  function Print(fields: seq<Field>): string {
    if fields == [] then "" else
    Decimal(fields[0].width, fields[0].value) + (fields[0].separator + Print(fields[1..]))
  }

  /** Reads numbers of the given widths, each followed by a separator of the given length. */
  function Read(text: string, shape: seq<(nat, nat)>): seq<nat> {
    if shape == [] || |text| < shape[0].0 + shape[0].1 then [] else
    [Number(text[..shape[0].0])] + Read(text[shape[0].0 + shape[0].1..], shape[1..])
  }

  function Shape(fields: seq<Field>): seq<(nat, nat)> {
    if fields == [] then [] else [(fields[0].width, |fields[0].separator|)] + Shape(fields[1..])
  }

  function Values(fields: seq<Field>): seq<nat> {
    if fields == [] then [] else [fields[0].value] + Values(fields[1..])
  }

  predicate AllFit(fields: seq<Field>) {
    forall i :: 0 <= i < |fields| ==> fields[i].Fits()
  }

  lemma SplitText(x: string, separator: string, tail: string)
    ensures (x + (separator + tail))[..|x|] == x && (x + (separator + tail))[|x| + |separator|..] == tail
  {}

  lemma {:induction false} PrintRoundTrip(fields: seq<Field>)
    requires AllFit(fields)
    ensures Read(Print(fields), Shape(fields)) == Values(fields)
  {
    if fields != [] {
      var x, tail := Decimal(fields[0].width, fields[0].value), Print(fields[1..]);
      SplitText(x, fields[0].separator, tail);
      DecimalRoundTrip(fields[0].width, fields[0].value);
      PrintRoundTrip(fields[1..]);
    }
  }

  // ---------------------------------------------------------------- text order

  /** `a` comes strictly before `b` in dictionary order. */
  predicate Before(a: string, b: string) {
    b != "" && (a == "" || a[0] < b[0] || (a[0] == b[0] && Before(a[1..], b[1..])))
  }

  predicate Less(a: seq<nat>, b: seq<nat>) {
    a != [] && b != [] && (a[0] < b[0] || (a[0] == b[0] && Less(a[1..], b[1..])))
  }

  lemma {:induction false} BeforeConcat(a: string, b: string, x: string, y: string)
    requires |a| == |b| && (Before(a, b) || (a == b && Before(x, y)))
    ensures Before(a + x, b + y)
  {
    if a == "" {
      assert a + x == x && b + y == y;
    } else {
      assert (a + x)[1..] == a[1..] + x && (b + y)[1..] == b[1..] + y;
      if a[0] == b[0] { BeforeConcat(a[1..], b[1..], x, y); }
    }
  }

  lemma {:induction false} DecimalOrder(w: nat, m: nat, n: nat)
    requires m < n < Pow10(w)
    ensures Before(Decimal(w, m), Decimal(w, n))
  {
    if m / 10 < n / 10 {
      DecimalOrder(w - 1, m / 10, n / 10);
      BeforeConcat(Decimal(w - 1, m / 10), Decimal(w - 1, n / 10), [Digit(m % 10)], [Digit(n % 10)]);
    } else {
      assert Before([Digit(m % 10)], [Digit(n % 10)]);
      BeforeConcat(Decimal(w - 1, m / 10), Decimal(w - 1, n / 10), [Digit(m % 10)], [Digit(n % 10)]);
    }
  }

  predicate SameLayout(f: seq<Field>, g: seq<Field>) {
    |f| == |g| && forall i :: 0 <= i < |f| ==> f[i].width == g[i].width && f[i].separator == g[i].separator
  }

  lemma {:induction false} PrintOrder(f: seq<Field>, g: seq<Field>)
    requires SameLayout(f, g) && AllFit(g) && Less(Values(f), Values(g))
    ensures Before(Print(f), Print(g))
  {
    var x, y := Decimal(f[0].width, f[0].value), Decimal(g[0].width, g[0].value);
    var p, q := f[0].separator + Print(f[1..]), g[0].separator + Print(g[1..]);
    if f[0].value < g[0].value {
      DecimalOrder(f[0].width, f[0].value, g[0].value);
    } else {
      PrintOrder(f[1..], g[1..]);
      BeforePrefix(f[0].separator, Print(f[1..]), Print(g[1..]));
    }
    BeforeConcat(x, y, p, q);
  }

  lemma {:induction false} BeforePrefix(p: string, x: string, y: string)
    requires Before(x, y)
    ensures Before(p + x, p + y)
  {
    BeforeConcat(p, p, x, y);
  }

  lemma {:induction false} BeforeIsStrict(a: string, b: string)
    requires Before(a, b)
    ensures a != b && !Before(b, a)
  {
    if a != "" && a[0] == b[0] { BeforeIsStrict(a[1..], b[1..]); }
  }

  // ---------------------------------------------------------------- the stamp

  /** `put_time` with "%Y-%m-%dT%H:%M:%S", then a point and six digits of microseconds. */
  function StampFields(t: Civil, micros: nat): seq<Field> {
    [Field(4, t.year, "-"), Field(2, t.month, "-"), Field(2, t.day, "T"),
     Field(2, t.hour, ":"), Field(2, t.minute, ":"), Field(2, t.second, "."), Field(6, micros, "")]
  }

  const STAMP_SHAPE: seq<(nat, nat)> := [(4, 1), (2, 1), (2, 1), (2, 1), (2, 1), (2, 1), (6, 0)]

  function FieldsAt(ns: nat): seq<Field> {
    StampFields(GmTime(ns / 1000 / 1_000_000), ns / 1000 % 1_000_000)
  }

  /** The clock reading is in nanoseconds since 1970, truncated to microseconds. */
  function GetTimestamp(ns: nat): string {
    Print(FieldsAt(ns))
  }

  /** Converts the seven numbers of a stamp with the POSIX formula, to microseconds. */
  function Convert(v: seq<nat>): Option<int> {
    if |v| == 7 && 1 <= v[1] <= 12 then
      Some(1_000_000 * SecondsSinceEpoch(Civil(v[0], v[1], v[2], v[3], v[4], v[5])) + v[6])
    else None
  }

  /** Reads a stamp back. */
  function Parse(text: string): Option<int> {
    Convert(Read(text, STAMP_SHAPE))
  }

  lemma {:induction false} FieldAt(f: seq<Field>, i: nat)
    requires i < |f|
    ensures |Values(f)| == |Shape(f)| == |f|
    ensures Values(f)[i] == f[i].value && Shape(f)[i] == (f[i].width, |f[i].separator|)
  {
    if |f| > 1 { FieldAt(f[1..], if i == 0 then 0 else i - 1); }
  }

  lemma {:induction false} PrintLength(f: seq<Field>)
    ensures |Print(f)| == TotalWidth(Shape(f))
  {
    if f != [] { PrintLength(f[1..]); }
  }

  function TotalWidth(shape: seq<(nat, nat)>): nat {
    if shape == [] then 0 else shape[0].0 + shape[0].1 + TotalWidth(shape[1..])
  }

  lemma FourDigitYear(secs: nat)
    requires secs < 253_402_300_800
    ensures 1970 <= GmTime(secs).year <= 9999
  {
    var days := secs / 86400;
    var (year, yday) := SplitYears(days, 1970);
    SplitYearsRight(days, 1970);
    assert DaysBeforeYear(10000) == 2932897;
  }

  lemma Powers()
    ensures Pow10(2) == 100 && Pow10(4) == 10000 && Pow10(6) == 1_000_000
  {
    assert Pow10(3) == 10 * Pow10(2) && Pow10(5) == 10 * Pow10(4);
  }

  lemma FieldsFit(ns: nat)
    requires ns < END_OF_9999
    ensures AllFit(FieldsAt(ns))
  {
    GmTimeInvertsPosix(ns / 1000 / 1_000_000);
    FourDigitYear(ns / 1000 / 1_000_000);
    Powers();
  }

  lemma StampLayout(t: Civil, us: nat)
    ensures Shape(StampFields(t, us)) == STAMP_SHAPE
    ensures Values(StampFields(t, us)) == [t.year, t.month, t.day, t.hour, t.minute, t.second, us]
  {
    var f := StampFields(t, us);
    FieldAt(f, 0);
    forall i | 0 <= i < 7 ensures Values(f)[i] == f[i].value && Shape(f)[i] == (f[i].width, |f[i].separator|) {
      FieldAt(f, i);
    }
  }

  lemma ConvertRight(micros: nat)
    ensures var t := GmTime(micros / 1_000_000);
            Convert([t.year, t.month, t.day, t.hour, t.minute, t.second, micros % 1_000_000]) == Some(micros)
  {
    var t := GmTime(micros / 1_000_000);
    GmTimeInvertsPosix(micros / 1_000_000);
    assert t == Civil(t.year, t.month, t.day, t.hour, t.minute, t.second);
  }

  lemma StampReads(ns: nat)
    requires ns < END_OF_9999
    ensures |GetTimestamp(ns)| == STAMP_LENGTH && Read(GetTimestamp(ns), STAMP_SHAPE) == Values(FieldsAt(ns))
  {
    FieldsFit(ns);
    PrintRoundTrip(FieldsAt(ns));
    StampLayout(GmTime(ns / 1000 / 1_000_000), ns / 1000 % 1_000_000);
    PrintLength(FieldsAt(ns));
    StampWidth();
  }

  /** Parsing a stamp recovers the clock reading truncated to microseconds. */
  lemma StampParses(ns: nat)
    requires ns < END_OF_9999
    ensures |GetTimestamp(ns)| == STAMP_LENGTH && Parse(GetTimestamp(ns)) == Some(ns / 1000)
  {
    StampReads(ns);
    StampLayout(GmTime(ns / 1000 / 1_000_000), ns / 1000 % 1_000_000);
    ConvertRight(ns / 1000);
  }

  lemma StampWidth()
    ensures TotalWidth(STAMP_SHAPE) == STAMP_LENGTH
  {
    var rest: seq<(nat, nat)> := [(2, 1), (2, 1), (2, 1), (6, 0)];
    assert STAMP_SHAPE[1..][1..][1..] == rest && rest[1..][1..][1..] == [(6, 0)];
    assert TotalWidth(rest) == 15;
  }

  predicate AllDigits(text: string) { forall i :: 0 <= i < |text| ==> '0' <= text[i] <= '9' }

  lemma {:induction false} DecimalIsDigits(w: nat, n: nat)
    ensures AllDigits(Decimal(w, n))
  {
    if w > 0 { DecimalIsDigits(w - 1, n / 10); }
  }

  /** A number of this width is what the text holds from position `at` on. */
  ghost predicate Shows(text: string, at: nat, w: nat, n: nat) {
    at + w <= |text| && AllDigits(text[at..at + w]) && Number(text[at..at + w]) == n
  }

  lemma FieldShows(front: string, w: nat, n: nat, tail: string)
    requires n < Pow10(w)
    ensures Shows(front + (Decimal(w, n) + tail), |front|, w, n)
  {
    var text := front + (Decimal(w, n) + tail);
    DecimalRoundTrip(w, n);
    DecimalIsDigits(w, n);
    assert text[|front|..|front| + w] == Decimal(w, n);
  }

  /** Printing in front of the k-th field. */
  function Printed(f: seq<Field>, k: nat): string
    requires k <= |f|
  {
    if k == 0 then "" else Printed(f, k - 1) + (Decimal(f[k - 1].width, f[k - 1].value) + f[k - 1].separator)
  }

  lemma {:induction false} PrintSplits(f: seq<Field>, k: nat)
    requires k <= |f|
    ensures Print(f) == Printed(f, k) + Print(f[k..])
  {
    if k == 0 {
      assert f[0..] == f;
    } else {
      PrintSplits(f, k - 1);
      assert f[k - 1..][1..] == f[k..];
      assert Print(f[k - 1..]) == Decimal(f[k - 1].width, f[k - 1].value) + (f[k - 1].separator + Print(f[k..]));
    }
  }

  /** What stands at the k-th field: its number, then its separator. */
  lemma FieldStands(f: seq<Field>, k: nat)
    requires k < |f| && f[k].Fits()
    ensures Shows(Print(f), |Printed(f, k)|, f[k].width, f[k].value)
    ensures |Printed(f, k + 1)| == |Printed(f, k)| + f[k].width + |f[k].separator| <= |Print(f)|
    ensures Print(f)[|Printed(f, k)| + f[k].width..|Printed(f, k + 1)|] == f[k].separator
  {
    PrintSplits(f, k);
    PrintSplits(f, k + 1);
    FieldShows(Printed(f, k), f[k].width, f[k].value, f[k].separator + Print(f[k + 1..]));
    assert Print(f[k..]) == Decimal(f[k].width, f[k].value) + (f[k].separator + Print(f[k + 1..])) by {
      assert f[k..][1..] == f[k + 1..];
    }
  }

  /** From 1970 to the end of year 9999 a stamp has exactly 26 characters, in the shape of section 5.6 of RFC 3339 without
      the offset, "YYYY-MM-DDThh:mm:ss.ffffff", each number the one `gmtime` returns, and parsing it recovers the clock
      reading truncated to microseconds. */
  lemma StampRoundTrip(ns: nat)
    requires ns < END_OF_9999
    ensures var text, t := GetTimestamp(ns), GmTime(ns / 1_000_000_000);
            && |text| == 26 && text[4] == '-' && text[7] == '-' && text[10] == 'T'
            && text[13] == ':' && text[16] == ':' && text[19] == '.'
            && Shows(text, 0, 4, t.year) && Shows(text, 5, 2, t.month) && Shows(text, 8, 2, t.day)
            && Shows(text, 11, 2, t.hour) && Shows(text, 14, 2, t.minute) && Shows(text, 17, 2, t.second)
            && Shows(text, 20, 6, ns / 1000 % 1_000_000)
            && Parse(text) == Some(ns / 1000)
  {
    var f := FieldsAt(ns);
    StampReads(ns);
    StampParses(ns);
    FieldsFit(ns);
    SevenFields(f);
    ThousandMillion(ns);
  }

  lemma ThousandMillion(ns: nat)
    ensures ns / 1000 / 1_000_000 == ns / 1_000_000_000
  {}

  /** A field with a one-character separator, at a known position. */
  lemma FieldFollows(f: seq<Field>, k: nat, at: nat, w: nat, c: char)
    requires k < |f| && f[k].Fits() && |Printed(f, k)| == at && f[k].width == w && f[k].separator == [c]
    ensures Shows(Print(f), at, w, f[k].value) && at + w < |Print(f)| && Print(f)[at + w] == c
    ensures |Printed(f, k + 1)| == at + w + 1
  {
    hide Print, Shows, Printed;
    FieldStands(f, k);
    assert Print(f)[at + w..at + w + 1][0] == c;
  }

  lemma SevenFields(f: seq<Field>)
    requires |f| == 7 && AllFit(f)
    requires f[0].width == 4 && f[6].width == 6 && forall k :: 1 <= k < 6 ==> f[k].width == 2
    requires f[0].separator == "-" && f[1].separator == "-" && f[2].separator == "T"
    requires f[3].separator == ":" && f[4].separator == ":" && f[5].separator == "."
    ensures var text := Print(f);
            && |text| >= 26 && text[4] == '-' && text[7] == '-' && text[10] == 'T'
            && text[13] == ':' && text[16] == ':' && text[19] == '.'
            && Shows(text, 0, 4, f[0].value) && Shows(text, 5, 2, f[1].value) && Shows(text, 8, 2, f[2].value)
            && Shows(text, 11, 2, f[3].value) && Shows(text, 14, 2, f[4].value) && Shows(text, 17, 2, f[5].value)
            && Shows(text, 20, 6, f[6].value)
  {
    assert |Printed(f, 0)| == 0;
    hide Print, Shows, Printed;
    FieldFollows(f, 0, 0, 4, '-');
    FieldFollows(f, 1, 5, 2, '-');
    FieldFollows(f, 2, 8, 2, 'T');
    FieldFollows(f, 3, 11, 2, ':');
    FieldFollows(f, 4, 14, 2, ':');
    FieldFollows(f, 5, 17, 2, '.');
    FieldStands(f, 6);
  }

  /** A latency computed from two printed stamps is off by less than a microsecond. */
  lemma LatencyWithinMicrosecond(sent: nat, received: nat)
    requires sent < END_OF_9999 && received < END_OF_9999
    ensures var a, b := Parse(GetTimestamp(sent)), Parse(GetTimestamp(received));
            a.Some? && b.Some? && -1000 < 1000 * (b.value - a.value) - (received - sent) < 1000
  {
    StampParses(sent);
    StampParses(received);
  }

  // ---------------------------------------------------------------- text order is time order

  lemma {:induction false} YearsOrder(a: nat, b: nat, y: nat)
    requires a < b
    ensures var p, q := SplitYears(a, y), SplitYears(b, y); p.0 < q.0 || (p.0 == q.0 && p.1 < q.1)
    decreases a
  {
    if a >= YearLength(y) { YearsOrder(a - YearLength(y), b - YearLength(y), y + 1); }
  }

  lemma {:induction false} MonthsOrder(a: nat, b: nat, y: nat, m: nat)
    requires a < b && 1 <= m <= 12
    ensures var p, q := SplitMonths(a, y, m), SplitMonths(b, y, m); p.0 < q.0 || (p.0 == q.0 && p.1 < q.1)
    decreases 12 - m
  {
    if m < 12 && a >= MonthLength(y, m) { MonthsOrder(a - MonthLength(y, m), b - MonthLength(y, m), y, m + 1); }
  }

  lemma LessAt(a: seq<nat>, b: seq<nat>, k: nat)
    requires k < |a| && k < |b| && a[k] < b[k] && a[..k] == b[..k]
    ensures Less(a, b)
  {
    if k > 0 {
      assert a[0] == a[..k][0] && b[0] == b[..k][0];
      assert a[1..][..k - 1] == a[..k][1..] && b[1..][..k - 1] == b[..k][1..];
      LessAt(a[1..], b[1..], k - 1);
    }
  }

  function CivilValues(t: Civil): seq<nat> { [t.year, t.month, t.day, t.hour, t.minute, t.second] }

  lemma DateOrder(a: nat, b: nat) returns (k: nat)
    requires a / 86400 < b / 86400
    ensures k < 3 && CivilValues(GmTime(a))[k] < CivilValues(GmTime(b))[k]
    ensures forall i :: 0 <= i < k ==> CivilValues(GmTime(a))[i] == CivilValues(GmTime(b))[i]
  {
    var t, u := GmTime(a), GmTime(b);
    YearsOrder(a / 86400, b / 86400, 1970);
    if t.year == u.year {
      MonthsOrder(SplitYears(a / 86400, 1970).1, SplitYears(b / 86400, 1970).1, t.year, 1);
    }
    k := if t.year < u.year then 0 else if t.month < u.month then 1 else 2;
  }

  lemma ClockOrder(x: nat, y: nat)
    requires x < y
    ensures x / 3600 < y / 3600
         || (x / 3600 == y / 3600 && (x / 60 % 60 < y / 60 % 60 || (x / 60 % 60 == y / 60 % 60 && x % 60 < y % 60)))
  {
    HourAndMinute(x);
    HourAndMinute(y);
  }

  lemma SameDay(a: nat, b: nat)
    requires a / 86400 == b / 86400
    ensures GmTime(a).year == GmTime(b).year && GmTime(a).month == GmTime(b).month && GmTime(a).day == GmTime(b).day
  {}

  lemma TimeOfDay(a: nat)
    ensures GmTime(a).hour == a % 86400 / 3600 && GmTime(a).minute == a % 86400 / 60 % 60 && GmTime(a).second == a % 86400 % 60
  {}

  lemma TimeOrder(a: nat, b: nat) returns (k: nat)
    requires a / 86400 == b / 86400 && a % 86400 < b % 86400
    ensures k < 6 && CivilValues(GmTime(a))[k] < CivilValues(GmTime(b))[k]
    ensures forall i :: 0 <= i < k ==> CivilValues(GmTime(a))[i] == CivilValues(GmTime(b))[i]
  {
    SameDay(a, b);
    TimeOfDay(a);
    TimeOfDay(b);
    ClockOrder(a % 86400, b % 86400);
    var t, u := GmTime(a), GmTime(b);
    k := if t.hour < u.hour then 3 else if t.minute < u.minute then 4 else 5;
  }

  lemma CivilOrder(a: nat, b: nat) returns (k: nat)
    requires a < b
    ensures k < 6 && CivilValues(GmTime(a))[k] < CivilValues(GmTime(b))[k]
    ensures forall i :: 0 <= i < k ==> CivilValues(GmTime(a))[i] == CivilValues(GmTime(b))[i]
  {
    assert a == a / 86400 * 86400 + a % 86400 && b == b / 86400 * 86400 + b % 86400;
    if a / 86400 < b / 86400 { k := DateOrder(a, b); } else { k := TimeOrder(a, b); }
  }

  /** The stamp of an earlier microsecond comes first in dictionary order, and of the same microsecond is equal. */
  lemma StampOrder(a: nat, b: nat)
    requires a < END_OF_9999 && b < END_OF_9999
    ensures Before(GetTimestamp(a), GetTimestamp(b)) <==> a / 1000 < b / 1000
    ensures GetTimestamp(a) == GetTimestamp(b) <==> a / 1000 == b / 1000
  {
    if a / 1000 < b / 1000 {
      EarlierFirst(a, b);
      BeforeIsStrict(GetTimestamp(a), GetTimestamp(b));
    } else if b / 1000 < a / 1000 {
      EarlierFirst(b, a);
      BeforeIsStrict(GetTimestamp(b), GetTimestamp(a));
    } else {
      NotBeforeItself(GetTimestamp(a));
    }
  }

  lemma {:induction false} NotBeforeItself(a: string)
    ensures !Before(a, a)
  {
    if a != "" { NotBeforeItself(a[1..]); }
  }

  lemma EarlierFirst(a: nat, b: nat)
    requires a / 1000 < b / 1000 && b < END_OF_9999
    ensures Before(GetTimestamp(a), GetTimestamp(b))
  {
    var m, n := a / 1000, b / 1000;
    var t, u := GmTime(m / 1_000_000), GmTime(n / 1_000_000);
    StampLayout(t, m % 1_000_000);
    StampLayout(u, n % 1_000_000);
    FieldsFit(b);
    assert Values(FieldsAt(a)) == CivilValues(t) + [m % 1_000_000];
    assert Values(FieldsAt(b)) == CivilValues(u) + [n % 1_000_000];
    if m / 1_000_000 < n / 1_000_000 {
      var k := CivilOrder(m / 1_000_000, n / 1_000_000);
      assert Values(FieldsAt(a))[..k] == CivilValues(t)[..k] && Values(FieldsAt(b))[..k] == CivilValues(u)[..k];
      LessAt(Values(FieldsAt(a)), Values(FieldsAt(b)), k);
    } else {
      assert Values(FieldsAt(a))[..6] == CivilValues(t) && Values(FieldsAt(b))[..6] == CivilValues(u);
      LessAt(Values(FieldsAt(a)), Values(FieldsAt(b)), 6);
    }
    PrintOrder(FieldsAt(a), FieldsAt(b));
  }
}
