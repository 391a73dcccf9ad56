/** Parsing of Atlas sample timestamps in the fixed layout "2006-01-02T15:04:05Z"
    (model/value.go:12). A parsed timestamp is an Instant; the value selector
    only ever compares parsed times with `Before` and `!=`. */
module Timestamps {
  import opened Wrappers

  predicate IsDigit(c: char) {
    '0' <= c <= '9'
  }

  /** The value of a string made only of decimal digits, or None. */
  function Digits(s: string): (r: Option<nat>)
    ensures r.Some? <==> forall i :: 0 <= i < |s| ==> IsDigit(s[i])
  {
    if s == [] then Some(0)
    else if !IsDigit(s[|s| - 1]) then None
    else match Digits(s[..|s| - 1])
      case None => None
      case Some(v) => Some(v * 10 + (s[|s| - 1] as int - '0' as int))
  }

  predicate IsLeap(year: nat) {
    (year % 4 == 0 && year % 100 != 0) || year % 400 == 0
  }

  function DaysIn(month: nat, year: nat): nat
    requires 1 <= month <= 12
  {
    if month == 2 then (if IsLeap(year) then 29 else 28)
    else if month == 4 || month == 6 || month == 9 || month == 11 then 30
    else 31
  }

  /** A calendar instant with each field in range. */
  predicate ValidFields(y: nat, mo: nat, d: nat, h: nat, mi: nat, s: nat) {
    1 <= mo <= 12 && 1 <= d <= DaysIn(mo, y) && h < 24 && mi < 60 && s < 60
  }

  /** A parsed instant, field by field (time.Time in UTC, whole seconds). */
  datatype Instant = Instant(year: nat, month: nat, day: nat, hour: nat, minute: nat, second: nat)

  /** time.Time.Before: lexicographic on (year, month, day, hour, minute, second). */
  predicate Before(a: Instant, b: Instant) {
    if a.year != b.year then a.year < b.year
    else if a.month != b.month then a.month < b.month
    else if a.day != b.day then a.day < b.day
    else if a.hour != b.hour then a.hour < b.hour
    else if a.minute != b.minute then a.minute < b.minute
    else a.second < b.second
  }

  /** Before is a strict total order on instants. */
  lemma BeforeTotalOrder(a: Instant, b: Instant, c: Instant)
    ensures !Before(a, a)
    ensures Before(a, b) ==> !Before(b, a)
    ensures Before(a, b) && Before(b, c) ==> Before(a, c)
    ensures a == b || Before(a, b) || Before(b, a)
  {
  }

  /** Go's zero time.Time, 0001-01-01T00:00:00Z, which the sort comparator
      uses when a timestamp does not parse. */
  const ZeroTime: Instant := Instant(1, 1, 1, 0, 0, 0)

  /** The width of the hour field. The layout's "15" is Go's stdHour, which
      reads one digit, or two when a second digit follows; every other
      field has a fixed width. */
  function HourWidth(ts: string): (w: nat)
    ensures w == 1 || w == 2
  {
    if |ts| > 12 && IsDigit(ts[12]) then 2 else 1
  }

  /** time.Parse(timestampFormat, ts): a four-digit year, two-digit month and
      day, a one- or two-digit hour, two-digit minute and second, fixed
      separators, the literal zone "Z" and nothing after it, and every field
      within its calendar range. Parsed timestamps are exactly the renderings
      of their instants (ParseExactly). */
  function Parse(ts: string): (r: Option<Instant>)
    ensures r.Some? ==> var t := r.value; ValidFields(t.year, t.month, t.day, t.hour, t.minute, t.second)
  {
    var w := HourWidth(ts);
    if |ts| != 18 + w then None
    else ParseParts(ts[..11], ts[11..11 + w], ts[11 + w..])
  }

  /** The layout in three parts: "2006-01-02T", the hour, and ":04:05Z". */
  function ParseParts(date: string, hour: string, time: string): (r: Option<Instant>)
    requires |date| == 11 && |time| == 7
    ensures r.Some? ==> var t := r.value; ValidFields(t.year, t.month, t.day, t.hour, t.minute, t.second)
  {
    if date[4] != '-' || date[7] != '-' || date[10] != 'T' || time[0] != ':' || time[3] != ':' || time[6] != 'Z'
    then None
    else
      var y, mo, d := Digits(date[0..4]), Digits(date[5..7]), Digits(date[8..10]);
      var h, mi, s := Digits(hour), Digits(time[1..3]), Digits(time[4..6]);
      if y.None? || mo.None? || d.None? || h.None? || mi.None? || s.None? then None
      else if !ValidFields(y.value, mo.value, d.value, h.value, mi.value, s.value) then None
      else Some(Instant(y.value, mo.value, d.value, h.value, mi.value, s.value))
  }

  // ------------------------------------------------------------ rendering

  function Digit(n: nat): (c: char)
    requires n < 10
    ensures IsDigit(c) && c as int - '0' as int == n
  {
    ('0' as int + n) as char
  }

  /** A number below 100 as two digits. */
  function Pad2(n: nat): string
    requires n < 100
  {
    [Digit(n / 10), Digit(n % 10)]
  }

  /** A number below 10000 as four digits. */
  function Pad4(n: nat): string
    requires n < 10000
  {
    Pad2(n / 100) + Pad2(n % 100)
  }

  /** An instant the layout can render: valid fields and a four-digit year. */
  predicate Formattable(t: Instant) {
    ValidFields(t.year, t.month, t.day, t.hour, t.minute, t.second) && t.year < 10000
  }

  /** The date part of the layout, "2006-01-02T", filled in. */
  function DateText(y: nat, mo: nat, d: nat): string
    requires y < 10000 && mo < 100 && d < 100
  {
    var ys, ms, ds := Pad4(y), Pad2(mo), Pad2(d);
    [ys[0], ys[1], ys[2], ys[3], '-', ms[0], ms[1], '-', ds[0], ds[1], 'T']
  }

  /** The part of the layout after the hour, ":04:05Z", filled in. */
  function TimeText(mi: nat, s: nat): string
    requires mi < 100 && s < 100
  {
    var ms, ss := Pad2(mi), Pad2(s);
    [':', ms[0], ms[1], ':', ss[0], ss[1], 'Z']
  }

  /** The layout filled with the instant's fields and the given hour text. */
  function FormatWith(t: Instant, hour: string): string
    requires Formattable(t)
  {
    DateText(t.year, t.month, t.day) + hour + TimeText(t.minute, t.second)
  }

  /** The instant rendered in the layout with a two-digit hour, as
      time.Format writes it. */
  function Format(t: Instant): string
    requires Formattable(t)
  {
    FormatWith(t, Pad2(t.hour))
  }

  /** The instant rendered with an unpadded hour below 10, which stdHour
      also reads. */
  function FormatShortHour(t: Instant): string
    requires Formattable(t) && t.hour < 10
  {
    FormatWith(t, [Digit(t.hour)])
  }

  /** A timestamp parses to an instant exactly when it is that instant's
      rendering, with the hour padded or, below 10, unpadded. */
  lemma ParseExactly(ts: string, t: Instant)
    ensures Parse(ts) == Some(t) <==>
      Formattable(t) && (ts == Format(t) || (t.hour < 10 && ts == FormatShortHour(t)))
  {
    if Parse(ts) == Some(t) {
      ParsedIsFormatted(ts);
    }
    if Formattable(t) {
      FormattedParses(t, Pad2(t.hour), 2);
      if t.hour < 10 {
        FormattedParses(t, [Digit(t.hour)], 1);
      }
    }
  }

  lemma TwoDigitsOfPad2(n: nat)
    requires n < 100
    ensures Digits(Pad2(n)) == Some(n)
  {
    TwoDigits(Pad2(n));
  }

  lemma FourDigitsOfPad4(n: nat)
    requires n < 10000
    ensures Digits(Pad4(n)) == Some(n)
  {
    var s := Pad4(n);
    assert s[..2] == Pad2(n / 100) && s[2..] == Pad2(n % 100);
    FourDigits(s);
  }

  /** A two-digit field is the padding of its value. */
  lemma Pad2OfTwoDigits(s: string)
    requires |s| == 2 && Digits(s).Some?
    ensures Digits(s).value < 100 && Pad2(Digits(s).value) == s
  {
    assert IsDigit(s[0]) && IsDigit(s[1]);
    TwoDigits(s);
  }

  /** A four-digit field is the padding of its value. */
  lemma Pad4OfFourDigits(s: string)
    requires |s| == 4 && Digits(s).Some?
    ensures Digits(s).value < 10000 && Pad4(Digits(s).value) == s
  {
    assert IsDigit(s[0]) && IsDigit(s[1]) && IsDigit(s[2]) && IsDigit(s[3]);
    FourDigits(s);
    Pad2OfTwoDigits(s[..2]);
    Pad2OfTwoDigits(s[2..]);
    var hi, lo := Digits(s[..2]).value, Digits(s[2..]).value;
    assert Digits(s).value == hi * 100 + lo;
    HundredsSplit(hi, lo);
    assert s == s[..2] + s[2..];
  }

  lemma HundredsSplit(hi: nat, lo: nat)
    requires lo < 100
    ensures (hi * 100 + lo) / 100 == hi && (hi * 100 + lo) % 100 == lo
  {
  }

  /** The filled-in date part reads back its fields. */
  lemma DateTextReads(y: nat, mo: nat, d: nat)
    requires y < 10000 && mo < 100 && d < 100
    ensures var date := DateText(y, mo, d);
      && |date| == 11 && date[4] == '-' && date[7] == '-' && date[10] == 'T'
      && Digits(date[0..4]) == Some(y) && Digits(date[5..7]) == Some(mo) && Digits(date[8..10]) == Some(d)
  {
    var date := DateText(y, mo, d);
    assert date[0..4] == Pad4(y);
    assert date[5..7] == Pad2(mo);
    assert date[8..10] == Pad2(d);
    FourDigitsOfPad4(y);
    TwoDigitsOfPad2(mo);
    TwoDigitsOfPad2(d);
  }

  /** A date part with its separators and digits is the filling of its fields. */
  lemma DateTextOf(date: string)
    requires |date| == 11 && date[4] == '-' && date[7] == '-' && date[10] == 'T'
    requires Digits(date[0..4]).Some? && Digits(date[5..7]).Some? && Digits(date[8..10]).Some?
    ensures var y, mo, d := Digits(date[0..4]).value, Digits(date[5..7]).value, Digits(date[8..10]).value;
      y < 10000 && mo < 100 && d < 100 && date == DateText(y, mo, d)
  {
    Pad4OfFourDigits(date[0..4]);
    Pad2OfTwoDigits(date[5..7]);
    Pad2OfTwoDigits(date[8..10]);
  }

  /** The filled-in time part reads back its fields. */
  lemma TimeTextReads(mi: nat, s: nat)
    requires mi < 100 && s < 100
    ensures var time := TimeText(mi, s);
      && |time| == 7 && time[0] == ':' && time[3] == ':' && time[6] == 'Z'
      && Digits(time[1..3]) == Some(mi) && Digits(time[4..6]) == Some(s)
  {
    var time := TimeText(mi, s);
    assert time[1..3] == Pad2(mi);
    assert time[4..6] == Pad2(s);
    TwoDigitsOfPad2(mi);
    TwoDigitsOfPad2(s);
  }

  /** A time part with its separators and digits is the filling of its fields. */
  lemma TimeTextOf(time: string)
    requires |time| == 7 && time[0] == ':' && time[3] == ':' && time[6] == 'Z'
    requires Digits(time[1..3]).Some? && Digits(time[4..6]).Some?
    ensures var mi, s := Digits(time[1..3]).value, Digits(time[4..6]).value;
      mi < 100 && s < 100 && time == TimeText(mi, s)
  {
    Pad2OfTwoDigits(time[1..3]);
    Pad2OfTwoDigits(time[4..6]);
  }

  /** The three parts of a concatenation. */
  lemma Parts(p: string, h: string, q: string)
    ensures (p + h + q)[..|p|] == p && (p + h + q)[|p|..|p| + |h|] == h && (p + h + q)[|p| + |h|..] == q
  {
  }

  /** Every rendering with an hour field of width w parses back. */
  lemma FormattedParses(t: Instant, hour: string, w: nat)
    requires Formattable(t)
    requires (w == 2 && hour == Pad2(t.hour)) || (w == 1 && t.hour < 10 && hour == [Digit(t.hour)])
    ensures Parse(FormatWith(t, hour)) == Some(t)
  {
    var date, time := DateText(t.year, t.month, t.day), TimeText(t.minute, t.second);
    var ts := date + hour + time;
    DateTextReads(t.year, t.month, t.day);
    TimeTextReads(t.minute, t.second);
    Parts(date, hour, time);
    assert ts[12] == if w == 2 then hour[1] else time[0];
    assert HourWidth(ts) == w;
    if w == 2 {
      TwoDigitsOfPad2(t.hour);
    } else {
      assert hour[..0] == [];
    }
    assert ParseParts(date, hour, time) == Some(t);
  }

  /** A timestamp that parses is the rendering of what it parses to. */
  lemma ParsedIsFormatted(ts: string)
    requires Parses(ts)
    ensures var t := Parse(ts).value;
      Formattable(t) && (ts == Format(t) || (t.hour < 10 && ts == FormatShortHour(t)))
  {
    var t := Parse(ts).value;
    var w := HourWidth(ts);
    var date, hour, time := ts[..11], ts[11..11 + w], ts[11 + w..];
    DateTextOf(date);
    TimeTextOf(time);
    if w == 2 {
      Pad2OfTwoDigits(hour);
    } else {
      assert hour[..0] == [];
      assert hour == [Digit(t.hour)];
    }
    assert ts == date + hour + time;
  }

  /** Does this timestamp parse in the fixed layout? */
  predicate Parses(ts: string) {
    Parse(ts).Some?
  }

  /** The time the sort comparator sees: the parsed instant, or the zero time when
      parsing fails (the comparator discards the parse error). */
  function TimeOf(ts: string): (t: Instant)
    ensures Parses(ts) ==> Some(t) == Parse(ts)
    ensures !Parses(ts) ==> t == ZeroTime
  {
    match Parse(ts)
    case Some(t) => t
    case None => ZeroTime
  }

  /** Examples from the validation tests: a month of 20 and the empty string do
      not parse; a well-formed instant does, and a later minute orders later. */
  lemma ParseExamples()
    ensures !Parses("2021-20-04T16:53:06Z")
    ensures !Parses("")
    ensures Parses("2021-03-04T16:53:06Z") && Parses("2021-03-04T16:54:06Z")
    ensures Before(TimeOf("2021-03-04T16:53:06Z"), TimeOf("2021-03-04T16:54:06Z"))
  {
    BadMonthRejected();
    LaterMinuteLater();
  }

  lemma BadMonthRejected()
    ensures !Parses("2021-20-04T16:53:06Z")
  {
    var bad := "2021-20-04T16:53:06Z";
    assert HourWidth(bad) == 2;
    assert bad[..11][5..7] == bad[5..7];
    TwoDigits(bad[5..7]);
  }

  lemma LaterMinuteLater()
    ensures Parses("2021-03-04T16:53:06Z") && Parses("2021-03-04T16:54:06Z")
    ensures Before(TimeOf("2021-03-04T16:53:06Z"), TimeOf("2021-03-04T16:54:06Z"))
  {
    EarlyParses();
    LateParses();
  }

  lemma EarlyParses()
    ensures Parse("2021-03-04T16:53:06Z") == Some(Instant(2021, 3, 4, 16, 53, 6))
  {
    var t := Instant(2021, 3, 4, 16, 53, 6);
    assert Format(t) == "2021-03-04T16:53:06Z" by {
      RenderedFields(t, "2021", "03", "04", "53", "06");
      assert Pad2(16) == "16";
    }
    FormattedParses(t, Pad2(t.hour), 2);
  }

  lemma LateParses()
    ensures Parse("2021-03-04T16:54:06Z") == Some(Instant(2021, 3, 4, 16, 54, 6))
  {
    var t := Instant(2021, 3, 4, 16, 54, 6);
    assert Format(t) == "2021-03-04T16:54:06Z" by {
      RenderedFields(t, "2021", "03", "04", "54", "06");
      assert Pad2(16) == "16";
    }
    FormattedParses(t, Pad2(t.hour), 2);
  }

  /** An unpadded hour parses, as stdHour reads it, to the same instant as
      its padded form. */
  lemma ShortHourParses()
    ensures Parse("2021-03-04T6:53:06Z") == Some(Instant(2021, 3, 4, 6, 53, 6))
    ensures Parse("2021-03-04T06:53:06Z") == Some(Instant(2021, 3, 4, 6, 53, 6))
  {
    var t := Instant(2021, 3, 4, 6, 53, 6);
    assert FormatShortHour(t) == "2021-03-04T6:53:06Z" && Format(t) == "2021-03-04T06:53:06Z" by {
      RenderedFields(t, "2021", "03", "04", "53", "06");
      assert Pad2(6) == "06" && [Digit(6)] == "6";
    }
    FormattedParses(t, [Digit(t.hour)], 1);
    FormattedParses(t, Pad2(t.hour), 2);
  }

  /** The rendering of a concrete instant, field by field. */
  lemma RenderedFields(t: Instant, y: string, mo: string, d: string, mi: string, sec: string)
    requires Formattable(t)
    requires Pad4(t.year) == y && Pad2(t.month) == mo && Pad2(t.day) == d
    requires Pad2(t.minute) == mi && Pad2(t.second) == sec
    ensures forall hour :: FormatWith(t, hour) == y + "-" + mo + "-" + d + "T" + hour + ":" + mi + ":" + sec + "Z"
  {
    assert DateText(t.year, t.month, t.day) == y + "-" + mo + "-" + d + "T";
    assert TimeText(t.minute, t.second) == ":" + mi + ":" + sec + "Z";
  }

  /** The value of a two-digit field. */
  lemma TwoDigits(s: string)
    requires |s| == 2 && IsDigit(s[0]) && IsDigit(s[1])
    ensures Digits(s) == Some((s[0] as int - '0' as int) * 10 + (s[1] as int - '0' as int))
  {
    assert s[..1][..0] == [];
    assert Digits(s[..1]) == Some(s[0] as int - '0' as int);
  }

  /** The value of a four-digit field. */
  lemma FourDigits(s: string)
    requires |s| == 4 && IsDigit(s[0]) && IsDigit(s[1]) && IsDigit(s[2]) && IsDigit(s[3])
    ensures Digits(s) == Some((((s[0] as int - '0' as int) * 10 + (s[1] as int - '0' as int)) * 10
      + (s[2] as int - '0' as int)) * 10 + (s[3] as int - '0' as int))
  {
    TwoDigits(s[..2]);
    assert s[..3][..2] == s[..2];
  }
}
