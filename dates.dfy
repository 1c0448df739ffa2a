/**
 * Timestamps and the date parsers of the loaders: `datetime.strptime` with the
 * fixed formats the loaders use, the two `parse_date` helpers, and the
 * comparison against a cutoff.
 */
module Dates {
  import opened Wrappers
  import opened Text

  /** A naive (timezone-free) Python `datetime`. */
  datatype DateTime = DateTime(year: nat, month: nat, day: nat, hour: nat, minute: nat, second: nat)

  predicate IsLeapYear(y: int) {
    y % 4 == 0 && (y % 100 != 0 || y % 400 == 0)
  }

  function DaysInMonth(y: int, m: int): int {
    if m == 2 then (if IsLeapYear(y) then 29 else 28)
    else if m in {4, 6, 9, 11} then 30
    else 31
  }

  /** The field ranges the `datetime` constructor accepts. */
  predicate Valid(d: DateTime) {
    && 1 <= d.year <= 9999
    && 1 <= d.month <= 12
    && 1 <= d.day <= DaysInMonth(d.year, d.month)
    && 0 <= d.hour < 24
    && 0 <= d.minute < 60
    && 0 <= d.second < 60
  }

  /** `a < b` on datetimes: lexicographic on the fields. */
  predicate Before(a: DateTime, b: DateTime) {
    if a.year != b.year then a.year < b.year
    else if a.month != b.month then a.month < b.month
    else if a.day != b.day then a.day < b.day
    else if a.hour != b.hour then a.hour < b.hour
    else if a.minute != b.minute then a.minute < b.minute
    else a.second < b.second
  }

  /** `CUTOFF_DATE = datetime(2024, 1, 1)` of the historical loader. */
  const HistoricalCutoff: DateTime := DateTime(2024, 1, 1, 0, 0, 0)

  /** `d.strftime("%Y-%m-%d")`. */
  function FormatDate(d: DateTime): string {
    PadDigits(d.year, 4) + "-" + PadDigits(d.month, 2) + "-" + PadDigits(d.day, 2)
  }

  /** `d.strftime("%H:%M:%S")`. */
  function FormatTime(d: DateTime): string {
    PadDigits(d.hour, 2) + ":" + PadDigits(d.minute, 2) + ":" + PadDigits(d.second, 2)
  }

  /** `d.strftime("%Y-%m-%d %H:%M:%S")`, the API's usual timestamp form. */
  function FormatDateTime(d: DateTime): string {
    FormatDate(d) + " " + FormatTime(d)
  }

  /** `d.isoformat()` for a datetime without microseconds. */
  function FormatIso(d: DateTime): string {
    FormatDate(d) + "T" + FormatTime(d)
  }

  predicate DigitsAt(s: string, i: nat, w: nat) {
    i + w <= |s| && AllDigits(s[i..i + w])
  }

  function FieldAt(s: string, i: nat, w: nat): nat
    requires DigitsAt(s, i, w)
  {
    DecimalValue(s[i..i + w])
  }

  /** The shape `YYYY-MM-DD` at the start of `s`. */
  predicate DateShaped(s: string) {
    |s| >= 10 && DigitsAt(s, 0, 4) && s[4] == '-' && DigitsAt(s, 5, 2) && s[7] == '-' && DigitsAt(s, 8, 2)
  }

  /** `datetime.strptime(s, "%Y-%m-%d")`, None where it raises `ValueError`. */
  function ParseDate(s: string): (r: Option<DateTime>)
    ensures r.Some? ==> Valid(r.value)
  {
    if |s| == 10 && DateShaped(s) then
      var d := DateTime(FieldAt(s, 0, 4), FieldAt(s, 5, 2), FieldAt(s, 8, 2), 0, 0, 0);
      if Valid(d) then Some(d) else None
    else None
  }

  /** The shape `YYYY-MM-DD HH:MM:SS`, exactly. */
  predicate DateTimeShaped(s: string) {
    |s| == 19 && DateShaped(s) && s[10] == ' ' && DigitsAt(s, 11, 2) && s[13] == ':'
    && DigitsAt(s, 14, 2) && s[16] == ':' && DigitsAt(s, 17, 2)
  }

  function DateTimeFields(s: string): DateTime
    requires DateTimeShaped(s)
  {
    DateTime(FieldAt(s, 0, 4), FieldAt(s, 5, 2), FieldAt(s, 8, 2),
             FieldAt(s, 11, 2), FieldAt(s, 14, 2), FieldAt(s, 17, 2))
  }

  /** `datetime.strptime(s, "%Y-%m-%d %H:%M:%S")`, None where it raises `ValueError`. */
  function ParseDateTime(s: string): (r: Option<DateTime>)
    ensures r.Some? ==> Valid(r.value)
  {
    if DateTimeShaped(s) && Valid(DateTimeFields(s)) then Some(DateTimeFields(s)) else None
  }

  /** `strptime(s, "%Y-%m-%d %H:%M:%S") if s else None` raises exactly on a truthy, malformed `s`. */
  predicate BadDate(s: Option<string>) {
    Truthy(s) && ParseDateTime(s.value).None?
  }

  /** The value of that expression when it does not raise. */
  function StrictDate(s: Option<string>): (r: Option<DateTime>)
    ensures !Truthy(s) ==> r.None?
    ensures Truthy(s) && !BadDate(s) ==> r.Some? && Some(r.value) == ParseDateTime(s.value)
  {
    if Truthy(s) then ParseDateTime(s.value) else None
  }

  lemma PadValue(n: nat, w: nat)
    requires n < Pow10(w)
    ensures DecimalValue(PadDigits(n, w)) == n
  {
    PadDigitsValue(n, w);
  }

  lemma NoCharInDigits(n: nat, w: nat, c: char)
    requires !IsDigit(c)
    ensures c !in PadDigits(n, w)
  {
    var p := PadDigits(n, w);
    assert forall i :: 0 <= i < |p| ==> p[i] != c;
  }

  lemma FormatDateFields(d: DateTime)
    requires Valid(d)
    ensures var s := FormatDate(d);
      |s| == 10 && DateShaped(s)
      && FieldAt(s, 0, 4) == d.year && FieldAt(s, 5, 2) == d.month && FieldAt(s, 8, 2) == d.day
  {
    var s := FormatDate(d);
    assert Pow10(2) == 100 && Pow10(4) == 10000;
    assert s[0..4] == PadDigits(d.year, 4);
    assert s[5..7] == PadDigits(d.month, 2);
    assert s[8..10] == PadDigits(d.day, 2);
    PadValue(d.year, 4);
    PadValue(d.month, 2);
    PadValue(d.day, 2);
  }

  lemma FormatTimeFields(d: DateTime)
    requires Valid(d)
    ensures var s := FormatTime(d);
      |s| == 8 && DigitsAt(s, 0, 2) && s[2] == ':' && DigitsAt(s, 3, 2) && s[5] == ':' && DigitsAt(s, 6, 2)
      && FieldAt(s, 0, 2) == d.hour && FieldAt(s, 3, 2) == d.minute && FieldAt(s, 6, 2) == d.second
  {
    var s := FormatTime(d);
    assert Pow10(2) == 100;
    assert s[0..2] == PadDigits(d.hour, 2);
    assert s[3..5] == PadDigits(d.minute, 2);
    assert s[6..8] == PadDigits(d.second, 2);
    PadValue(d.hour, 2);
    PadValue(d.minute, 2);
    PadValue(d.second, 2);
  }

  /** strptime reads back what strftime wrote. */
  lemma ParseFormatDateTime(d: DateTime)
    requires Valid(d)
    ensures ParseDateTime(FormatDateTime(d)) == Some(d)
  {
    var a, b := FormatDate(d), FormatTime(d);
    var s := FormatDateTime(d);
    FormatDateFields(d);
    FormatTimeFields(d);
    assert s[0..4] == a[0..4] && s[5..7] == a[5..7] && s[8..10] == a[8..10];
    assert s[11..13] == b[0..2] && s[14..16] == b[3..5] && s[17..19] == b[6..8];
  }

  lemma DatePartOfShaped(s: string, d: DateTime)
    requires DateShaped(s)
    requires d.year == FieldAt(s, 0, 4) && d.month == FieldAt(s, 5, 2) && d.day == FieldAt(s, 8, 2)
    ensures FormatDate(d) == s[..10]
  {
    PadDigitsOfValue(s[0..4]);
    PadDigitsOfValue(s[5..7]);
    PadDigitsOfValue(s[8..10]);
    assert s[..10] == s[0..4] + [s[4]] + s[5..7] + [s[7]] + s[8..10];
  }

  lemma TimePartOfShaped(s: string, d: DateTime)
    requires DateTimeShaped(s)
    requires d.hour == FieldAt(s, 11, 2) && d.minute == FieldAt(s, 14, 2) && d.second == FieldAt(s, 17, 2)
    ensures FormatTime(d) == s[11..]
  {
    var h, m, sec := s[11..13], s[14..16], s[17..19];
    PadDigitsOfValue(h);
    PadDigitsOfValue(m);
    PadDigitsOfValue(sec);
    assert PadDigits(d.hour, 2) == h && PadDigits(d.minute, 2) == m && PadDigits(d.second, 2) == sec;
    assert ":" == [s[13]] == [s[16]];
    assert s[11..] == h + [s[13]] + m + [s[16]] + sec;
  }

  /** Every string strptime accepts is the canonical rendering of its result. */
  lemma FormatParseDateTime(s: string)
    requires ParseDateTime(s).Some?
    ensures FormatDateTime(ParseDateTime(s).value) == s
  {
    assert DateTimeShaped(s);
    var d := DateTimeFields(s);
    assert ParseDateTime(s).value == d;
    DatePartOfShaped(s, d);
    TimePartOfShaped(s, d);
    assert s == s[..10] + [s[10]] + s[11..];
  }

  /** `s.replace(c, t)` for a single character `c`. */
  function ReplaceChar(s: string, c: char, t: string): (r: string)
    ensures c !in t ==> c !in r
  {
    if s == [] then []
    else (if s[0] == c then t else [s[0]]) + ReplaceChar(s[1..], c, t)
  }

  lemma ReplaceAbsent(s: string, c: char, t: string)
    requires c !in s
    ensures ReplaceChar(s, c, t) == s
  {
  }

  lemma ReplaceConcat(a: string, b: string, c: char, t: string)
    ensures ReplaceChar(a + b, c, t) == ReplaceChar(a, c, t) + ReplaceChar(b, c, t)
  {
    if a != [] {
      assert (a + b)[0] == a[0];
      assert (a + b)[1..] == a[1..] + b;
      ReplaceConcat(a[1..], b, c, t);
      var h := if a[0] == c then t else [a[0]];
      assert ReplaceChar(a + b, c, t) == h + (ReplaceChar(a[1..], c, t) + ReplaceChar(b, c, t));
    } else {
      assert a + b == b;
    }
  }

  /** `s.split(sep)[0]`: everything before the first `sep`. */
  function BeforeFirst(s: string, sep: char): (r: string)
    ensures sep !in r
    ensures sep !in s ==> r == s
    ensures |r| <= |s| && r == s[..|r|]
  {
    if s == [] || s[0] == sep then [] else [s[0]] + BeforeFirst(s[1..], sep)
  }

  lemma BeforeFirstConcat(a: string, b: string, sep: char)
    requires sep !in a && b != [] && b[0] == sep
    ensures BeforeFirst(a + b, sep) == a
  {
    if a != [] {
      assert (a + b)[1..] == a[1..] + b;
    }
  }

  /**
   * `parse_date` of load_historical.py: falsy input gives None; the
   * `%Y-%m-%d %H:%M:%S` form first; otherwise `datetime.fromisoformat` (here
   * the parameter `fromIso`, already dropping any timezone) on the string
   * with `Z` spelled `+00:00`; anything else gives None, never an exception.
   */
  function ParseDateHistorical(s: Option<string>, fromIso: string -> Option<DateTime>): (r: Option<DateTime>)
    ensures !Truthy(s) ==> r == None
    ensures Truthy(s) && ParseDateTime(s.value).Some? ==> r == ParseDateTime(s.value)
    ensures Truthy(s) && ParseDateTime(s.value).None? ==> r == fromIso(ReplaceChar(s.value, 'Z', "+00:00"))
  {
    if !Truthy(s) then None
    else match ParseDateTime(s.value)
      case Some(d) => Some(d)
      case None => fromIso(ReplaceChar(s.value, 'Z', "+00:00"))
  }

  /** The canonical form always parses, whatever `fromisoformat` does. */
  lemma HistoricalReadsCanonical(d: DateTime, fromIso: string -> Option<DateTime>)
    requires Valid(d)
    ensures ParseDateHistorical(Some(FormatDateTime(d)), fromIso) == Some(d)
  {
    ParseFormatDateTime(d);
  }

  /** `str(s).replace('T', ' ').split('.')[0]`. */
  function NormalizeTimestamp(s: string): string {
    BeforeFirst(ReplaceChar(s, 'T', " "), '.')
  }

  /**
   * `parse_date` of enrich_missing_announcements.py: falsy input gives None;
   * after normalisation it accepts `%Y-%m-%d %H:%M:%S`, then `%Y-%m-%d`, and
   * gives None for anything else.
   */
  function ParseDateBackfill(s: Option<string>): (r: Option<DateTime>)
    ensures !Truthy(s) ==> r == None
    ensures r.Some? ==> Valid(r.value)
    ensures r.Some? ==> r == ParseDateTime(NormalizeTimestamp(s.value)) || r == ParseDate(NormalizeTimestamp(s.value))
  {
    if !Truthy(s) then None
    else
      var clean := NormalizeTimestamp(s.value);
      match ParseDateTime(clean)
      case Some(d) => Some(d)
      case None => ParseDate(clean)
  }

  lemma NoLettersInFormat(d: DateTime)
    ensures 'T' !in FormatDate(d) && 'T' !in FormatTime(d)
    ensures '.' !in FormatDate(d) && '.' !in FormatTime(d)
  {
    NoCharInDigits(d.year, 4, 'T');
    NoCharInDigits(d.month, 2, 'T');
    NoCharInDigits(d.day, 2, 'T');
    NoCharInDigits(d.hour, 2, 'T');
    NoCharInDigits(d.minute, 2, 'T');
    NoCharInDigits(d.second, 2, 'T');
    NoCharInDigits(d.year, 4, '.');
    NoCharInDigits(d.month, 2, '.');
    NoCharInDigits(d.day, 2, '.');
    NoCharInDigits(d.hour, 2, '.');
    NoCharInDigits(d.minute, 2, '.');
    NoCharInDigits(d.second, 2, '.');
  }

  /**
   * An ISO timestamp with a fractional part (`2024-03-05T10:20:30.123Z`)
   * parses to its wall-clock time: the `T` becomes a space and everything
   * from the first `.` is dropped.
   */
  lemma BackfillReadsIsoWithFraction(d: DateTime, fraction: string)
    requires Valid(d)
    ensures ParseDateBackfill(Some(FormatIso(d) + "." + fraction)) == Some(d)
  {
    NormalizeIsoWithFraction(d, fraction);
    ParseFormatDateTime(d);
  }

  lemma NormalizeIsoWithFraction(d: DateTime, fraction: string)
    ensures NormalizeTimestamp(FormatIso(d) + "." + fraction) == FormatDateTime(d)
  {
    NoLettersInFormat(d);
    NormalizeJoin(FormatDate(d), FormatTime(d), fraction);
  }

  lemma NormalizeJoin(a: string, b: string, fraction: string)
    requires 'T' !in a && 'T' !in b && '.' !in a && '.' !in b
    ensures NormalizeTimestamp(a + "T" + b + "." + fraction) == a + " " + b
  {
    var tail := "." + fraction;
    var rest := ReplaceChar(tail, 'T', " ");
    assert a + "T" + b + "." + fraction == a + "T" + b + tail;
    ReplaceJoined(a, b, tail);
    ReplaceCons('.', fraction, 'T', " ");
    assert rest != [] && rest[0] == '.';
    BeforeFirstConcat(a + " " + b, rest, '.');
  }

  /** Replacing in a one-character head. */
  lemma ReplaceCons(x: char, s: string, c: char, t: string)
    ensures ReplaceChar([x] + s, c, t) == (if x == c then t else [x]) + ReplaceChar(s, c, t)
  {
    assert ([x] + s)[0] == x && ([x] + s)[1..] == s;
  }

  /** The only `T` between two `T`-free parts becomes a space. */
  lemma ReplaceJoined(a: string, b: string, tail: string)
    requires 'T' !in a && 'T' !in b
    ensures ReplaceChar(a + "T" + b + tail, 'T', " ") == a + " " + b + ReplaceChar(tail, 'T', " ")
  {
    var u := b + tail;
    assert a + "T" + b + tail == a + (['T'] + u);
    ReplaceConcat(a, ['T'] + u, 'T', " ");
    ReplaceAbsent(a, 'T', " ");
    ReplaceCons('T', u, 'T', " ");
    ReplaceConcat(b, tail, 'T', " ");
    ReplaceAbsent(b, 'T', " ");
    var r := ReplaceChar(tail, 'T', " ");
    assert ReplaceChar(a + "T" + b + tail, 'T', " ") == a + (" " + (b + r));
    ConcatAssoc(a, " ", b, r);
  }

  /** A bare `YYYY-MM-DD` date parses to midnight of that day. */
  lemma BackfillReadsDate(d: DateTime)
    requires Valid(d) && d.hour == 0 && d.minute == 0 && d.second == 0
    ensures ParseDateBackfill(Some(FormatDate(d))) == Some(d)
  {
    var s := FormatDate(d);
    NoLettersInFormat(d);
    ReplaceAbsent(s, 'T', " ");
    assert NormalizeTimestamp(s) == s;
    FormatDateFields(d);
  }
}
