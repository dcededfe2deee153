/** Timestamps of the chat log: the fixed-width prefix `[YYYY/MM/DD, HH:MM:SS UTC]`,
    the conversion of its captured groups into Python `datetime`/`date` values, the
    nominal date taken from a log file's name, and the integer-second timeline the
    rest of the model uses in place of `datetime` arithmetic. */
module Timestamps {
  import opened Outcomes
  import opened Strings

  const MinYear := 1     // datetime.MINYEAR
  const MaxYear := 9999  // datetime.MAXYEAR
  const SecondsPerDay := 86400

  /** A timestamp in whole seconds: ToSeconds of the log's datetime. */
  type Time = int

  datatype Date = Date(year: int, month: int, day: int)
  datatype DateTime = DateTime(date: Date, hour: int, minute: int, second: int)

  predicate IsLeap(y: int) {
    y % 4 == 0 && (y % 100 != 0 || y % 400 == 0)
  }

  function DaysInMonth(y: int, m: int): int
    requires 1 <= m <= 12
  {
    if m == 2 then (if IsLeap(y) then 29 else 28)
    else if m == 4 || m == 6 || m == 9 || m == 11 then 30
    else 31
  }

  predicate ValidDate(d: Date) {
    MinYear <= d.year <= MaxYear && 1 <= d.month <= 12 && 1 <= d.day <= DaysInMonth(d.year, d.month)
  }

  predicate ValidDateTime(t: DateTime) {
    ValidDate(t.date) && 0 <= t.hour < 24 && 0 <= t.minute < 60 && 0 <= t.second < 60
  }

  /** `datetime.date(y, m, d)`: a ValueError for a day that is not on the calendar. */
  function MakeDate(y: int, m: int, d: int): (r: Result<Date>)
    ensures r.Ok? <==> ValidDate(Date(y, m, d))
    ensures r.Ok? ==> r.value == Date(y, m, d)
    ensures !r.Ok? ==> r == Err(ValueError)
  {
    if ValidDate(Date(y, m, d)) then Ok(Date(y, m, d)) else Err(ValueError)
  }

  /** `datetime.datetime(y, mo, d, h, mi, s)`: a ValueError outside the calendar or the clock. */
  function MakeDateTime(y: int, mo: int, d: int, h: int, mi: int, s: int): (r: Result<DateTime>)
    ensures r.Ok? <==> ValidDateTime(DateTime(Date(y, mo, d), h, mi, s))
    ensures r.Ok? ==> r.value == DateTime(Date(y, mo, d), h, mi, s)
    ensures !r.Ok? ==> r == Err(ValueError)
  {
    var t := DateTime(Date(y, mo, d), h, mi, s);
    if ValidDateTime(t) then Ok(t) else Err(ValueError)
  }

  /** `[int(i) for i in gs]`: the first string that is not a number raises ValueError. */
  function IntAll(gs: seq<string>): (r: Result<seq<nat>>)
    ensures r.Ok? <==> forall i | 0 <= i < |gs| :: ParseInt(gs[i]).Ok?
    ensures r.Ok? ==> |r.value| == |gs| && forall i | 0 <= i < |gs| :: ParseInt(gs[i]) == Ok(r.value[i])
    ensures r.Err? ==> r.failure == ValueError
  {
    if gs == [] then Ok([])
    else match IntAll(gs[..|gs| - 1])
      case Err(f) => Err(f)
      case Ok(init) =>
        match ParseInt(gs[|gs| - 1])
        case Err(f) => Err(f)
        case Ok(v) => Ok(init + [v])
  }

  function Take(gs: seq<string>, n: nat): seq<string> {
    if |gs| <= n then gs else gs[..n]
  }

  /** analyze.py's datetimeFromRegex: the first six groups as a datetime; fewer than six
      groups fail when r[5] is read. */
  function DatetimeFromGroups(groups: seq<string>): (r: Result<DateTime>)
    ensures r.Ok? <==>
      |groups| >= 6 && (forall i | 0 <= i < 6 :: ParseInt(groups[i]).Ok?) && ValidDateTime(GroupsDateTime(groups))
    ensures r.Ok? ==> r.value == GroupsDateTime(groups) && ValidDateTime(r.value)
    ensures |groups| < 6 && (forall i | 0 <= i < |groups| :: ParseInt(groups[i]).Ok?) ==> r == Err(IndexError)
    ensures (|groups| >= 6 && (forall i | 0 <= i < 6 :: ParseInt(groups[i]).Ok?) &&
             !ValidDateTime(GroupsDateTime(groups))) ==> r == Err(ValueError)
    ensures (exists i | 0 <= i < |groups| && i < 6 :: ParseInt(groups[i]).Err?) ==> r == Err(ValueError)
  {
    match IntAll(Take(groups, 6))
    case Err(f) => Err(f)
    case Ok(v) =>
      if |v| < 6 then Err(IndexError)
      else MakeDateTime(v[0], v[1], v[2], v[3], v[4], v[5])
  }

  /** The datetime that six numeric groups spell, whether or not it is on the calendar. */
  function GroupsDateTime(groups: seq<string>): DateTime
    requires |groups| >= 6 && forall i | 0 <= i < 6 :: ParseInt(groups[i]).Ok?
  {
    DateTime(Date(ParseInt(groups[0]).value, ParseInt(groups[1]).value, ParseInt(groups[2]).value),
             ParseInt(groups[3]).value, ParseInt(groups[4]).value, ParseInt(groups[5]).value)
  }

  /** helpers.py's datetimeFromRegex: `datetime(*r)` over at most six numbers, so missing
      hour, minute and second default to 0 and fewer than three numbers is a TypeError. */
  function HelpersDatetimeFromGroups(groups: seq<string>): (r: Result<DateTime>)
  {
    match IntAll(Take(groups, 6))
    case Err(f) => Err(f)
    case Ok(v) =>
      if |v| < 3 then Err(TypeError)
      else MakeDateTime(v[0], v[1], v[2], if |v| > 3 then v[3] else 0,
                        if |v| > 4 then v[4] else 0, if |v| > 5 then v[5] else 0)
  }

  /** analyze.py's dateFromRegex: the first three groups as a date; fewer than three fail on r[2]. */
  function DateFromGroups(groups: seq<string>): (r: Result<Date>)
    ensures r.Ok? <==> |groups| >= 3 && (forall i | 0 <= i < 3 :: ParseInt(groups[i]).Ok?)
                       && ValidDate(Date(ParseInt(groups[0]).value, ParseInt(groups[1]).value, ParseInt(groups[2]).value))
    ensures r.Ok? ==> r.value == Date(ParseInt(groups[0]).value, ParseInt(groups[1]).value, ParseInt(groups[2]).value)
    ensures r.Err? ==> r.failure == ValueError || r.failure == IndexError
  {
    match IntAll(Take(groups, 3))
    case Err(f) => Err(f)
    case Ok(v) =>
      if |v| < 3 then Err(IndexError)
      else MakeDate(v[0], v[1], v[2])
  }

  /** helpers.py's dateFromRegex: `date(*r)`, a TypeError with fewer than three numbers. */
  function HelpersDateFromGroups(groups: seq<string>): (r: Result<Date>)
  {
    match IntAll(Take(groups, 3))
    case Err(f) => Err(f)
    case Ok(v) =>
      if |v| < 3 then Err(TypeError)
      else MakeDate(v[0], v[1], v[2])
  }

  /** The two copies of each parser agree whenever the regex supplied all the groups they read,
      and they differ only in the exception raised or the defaults used for missing groups. */
  lemma HelpersParsersAgree(groups: seq<string>)
    ensures |groups| >= 6 ==> HelpersDatetimeFromGroups(groups) == DatetimeFromGroups(groups)
    ensures |groups| >= 3 ==> HelpersDateFromGroups(groups) == DateFromGroups(groups)
    ensures |groups| == 3 && (forall i | 0 <= i < 3 :: ParseInt(groups[i]).Ok?) ==>
              DatetimeFromGroups(groups) == Err(IndexError) &&
              (HelpersDatetimeFromGroups(groups).Ok? <==>
                 ValidDate(Date(ParseInt(groups[0]).value, ParseInt(groups[1]).value, ParseInt(groups[2]).value)))
    ensures |groups| == 3 && (forall i | 0 <= i < 3 :: ParseInt(groups[i]).Ok?) &&
            ValidDate(Date(ParseInt(groups[0]).value, ParseInt(groups[1]).value, ParseInt(groups[2]).value)) ==>
              HelpersDatetimeFromGroups(groups) ==
                Ok(DateTime(Date(ParseInt(groups[0]).value, ParseInt(groups[1]).value, ParseInt(groups[2]).value), 0, 0, 0))
  {
    if |groups| == 3 && (forall i | 0 <= i < 3 :: ParseInt(groups[i]).Ok?) {
      assert Take(groups, 6) == groups;
      var v := IntAll(groups).value;
      assert v[0] == ParseInt(groups[0]).value && v[1] == ParseInt(groups[1]).value && v[2] == ParseInt(groups[2]).value;
    }
  }

  // ---------------------------------------------------------------------------
  // Integer seconds: date.toordinal() scaled to seconds, plus the time of day.

  function DaysBeforeMonth(y: int, m: int): (r: nat)
    requires 1 <= m <= 13
  {
    if m == 1 then 0 else DaysBeforeMonth(y, m - 1) + DaysInMonth(y, m - 1)
  }

  function DaysInYear(y: int): nat {
    DaysBeforeMonth(y, 13)
  }

  function DaysBeforeYear(y: int): nat
    requires y >= 1
  {
    if y == 1 then 0 else DaysBeforeYear(y - 1) + DaysInYear(y - 1)
  }

  /** `date.toordinal()`: day 1 is 0001-01-01 of the proleptic Gregorian calendar. */
  function Ordinal(d: Date): int
    requires ValidDate(d)
  {
    DaysBeforeYear(d.year) + DaysBeforeMonth(d.year, d.month) + d.day
  }

  /** Seconds since 0001-01-01 00:00:00; the model's timestamps are these integers. */
  function ToSeconds(t: DateTime): int
    requires ValidDateTime(t)
  {
    (Ordinal(t.date) - 1) * SecondsPerDay + t.hour * 3600 + t.minute * 60 + t.second
  }

  /** Python's `<` on dates and datetimes: field by field, most significant first. */
  predicate DateBefore(a: Date, b: Date) {
    a.year < b.year || (a.year == b.year && (a.month < b.month || (a.month == b.month && a.day < b.day)))
  }

  predicate Before(a: DateTime, b: DateTime) {
    DateBefore(a.date, b.date) ||
    (a.date == b.date &&
      (a.hour < b.hour || (a.hour == b.hour &&
        (a.minute < b.minute || (a.minute == b.minute && a.second < b.second)))))
  }

  lemma {:induction false} DaysBeforeMonthGrows(y: int, m: int, m': int)
    requires 1 <= m < m' <= 13
    ensures DaysBeforeMonth(y, m) + DaysInMonth(y, m) <= DaysBeforeMonth(y, m')
    decreases m'
  {
    if m' > m + 1 {
      DaysBeforeMonthGrows(y, m, m' - 1);
    }
  }

  lemma {:induction false} DaysBeforeYearGrows(y: int, y': int)
    requires 1 <= y < y'
    ensures DaysBeforeYear(y) + DaysInYear(y) <= DaysBeforeYear(y')
    decreases y'
  {
    if y' > y + 1 {
      DaysBeforeYearGrows(y, y' - 1);
    }
  }

  /** toordinal() is strictly increasing in the calendar order. */
  lemma OrdinalGrows(a: Date, b: Date)
    requires ValidDate(a) && ValidDate(b) && DateBefore(a, b)
    ensures Ordinal(a) < Ordinal(b)
  {
    if a.year < b.year {
      if a.month < 12 {
        DaysBeforeMonthGrows(a.year, a.month, 13);
      }
      DaysBeforeYearGrows(a.year, b.year);
    } else if a.month < b.month {
      DaysBeforeMonthGrows(a.year, a.month, b.month);
    }
  }

  /** Replacing datetimes by integer seconds keeps the comparisons the code makes:
      one datetime is earlier than another exactly when its seconds are fewer. */
  lemma ToSecondsOrder(a: DateTime, b: DateTime)
    requires ValidDateTime(a) && ValidDateTime(b)
    ensures Before(a, b) <==> ToSeconds(a) < ToSeconds(b)
    ensures a == b <==> ToSeconds(a) == ToSeconds(b)
  {
    if DateBefore(a.date, b.date) {
      OrdinalGrows(a.date, b.date);
    } else if DateBefore(b.date, a.date) {
      OrdinalGrows(b.date, a.date);
    }
  }

  // ---------------------------------------------------------------------------
  // The line prefix `[YYYY/MM/DD, HH:MM:SS UTC]` followed by any number of spaces.

  const PrefixLength := 26

  /** Widths of the six digit groups: year, month, day, hour, minute, second. */
  const GroupWidths: seq<nat> := [4, 2, 2, 2, 2, 2]

  predicate WellFormedGroups(gs: seq<string>) {
    |gs| == 6 && forall i | 0 <= i < 6 :: |gs[i]| == GroupWidths[i] && AllDigits(gs[i])
  }

  function FormatPrefix(gs: seq<string>): (s: string)
    requires |gs| == 6
  {
    "[" + gs[0] + "/" + gs[1] + "/" + gs[2] + ", " + gs[3] + ":" + gs[4] + ":" + gs[5] + " UTC]"
  }

  function Spaces(n: nat): (s: string)
    ensures |s| == n && forall i | 0 <= i < n :: s[i] == ' '
  {
    if n == 0 then "" else " " + Spaces(n - 1)
  }

  /** How many spaces start s (the greedy `[ ]*`). */
  function LeadingSpaces(s: string): (n: nat)
    ensures n <= |s| && s[..n] == Spaces(n) && (n == |s| || s[n] != ' ')
  {
    if s == [] || s[0] != ' ' then 0
    else
      var n := 1 + LeadingSpaces(s[1..]);
      assert s[..n] == " " + s[1..][..n - 1];
      n
  }

  /** The six digit fields of a line at the fixed positions of the prefix. */
  function PrefixGroups(line: string): (gs: seq<string>)
    requires |line| >= PrefixLength
    ensures |gs| == 6
  {
    [line[1..5], line[6..8], line[9..11], line[13..15], line[16..18], line[19..21]]
  }

  /** The literal characters of the prefix are in place and the fields hold digits. */
  predicate PrefixMatches(line: string)
    requires |line| >= PrefixLength
  {
    line[0] == '[' && line[5] == '/' && line[8] == '/' && line[11..13] == ", " &&
    line[15] == ':' && line[18] == ':' && line[21..26] == " UTC]" &&
    forall i | 0 <= i < 6 :: AllDigits(PrefixGroups(line)[i])
  }

  /** The anchored prefix pattern at analyze.py:10 as a fixed-width parser: the six digit
      groups and the text after the spaces that follow the closing bracket. */
  function ParsePrefix(line: string): (r: Option<(seq<string>, string)>)
    ensures r.Some? ==> (WellFormedGroups(r.value.0) &&
      exists n: nat :: line == FormatPrefix(r.value.0) + Spaces(n) + r.value.1)
    ensures r.Some? ==> r.value.1 == [] || r.value.1[0] != ' '
  {
    if |line| < PrefixLength || !PrefixMatches(line) then None
    else
      var gs := PrefixGroups(line);
      var tail := line[PrefixLength..];
      var n := LeadingSpaces(tail);
      assert line[..PrefixLength] == FormatPrefix(gs);
      assert line == line[..PrefixLength] + tail[..n] + tail[n..];
      Some((gs, tail[n..]))
  }

  /** Where each group and each literal character of a formatted prefix sits. */
  lemma FormatPrefixLayout(gs: seq<string>)
    requires WellFormedGroups(gs)
    ensures var p := FormatPrefix(gs);
      |p| == PrefixLength && p[0] == '[' && p[1..5] == gs[0] && p[5] == '/' && p[6..8] == gs[1] &&
      p[8] == '/' && p[9..11] == gs[2] && p[11..13] == ", " && p[13..15] == gs[3] && p[15] == ':' &&
      p[16..18] == gs[4] && p[18] == ':' && p[19..21] == gs[5] && p[21..26] == " UTC]"
  {
    var a := "[" + gs[0] + "/" + gs[1] + "/" + gs[2];
    assert |a| == 11 && a[0] == '[' && a[1..5] == gs[0] && a[5] == '/' && a[6..8] == gs[1] && a[8] == '/' && a[9..11] == gs[2];
    var b := ", " + gs[3] + ":" + gs[4] + ":" + gs[5] + " UTC]";
    assert |b| == 15 && b[0..2] == ", " && b[2..4] == gs[3] && b[4] == ':' && b[5..7] == gs[4] && b[7] == ':' && b[8..10] == gs[5] && b[10..15] == " UTC]";
    assert FormatPrefix(gs) == a + b;
  }

  /** Reading a prefix the server wrote gives back its six groups and the rest of the line. */
  lemma ParseFormatPrefix(gs: seq<string>, n: nat, rest: string)
    requires WellFormedGroups(gs)
    requires rest == [] || rest[0] != ' '
    ensures ParsePrefix(FormatPrefix(gs) + Spaces(n) + rest) == Some((gs, rest))
  {
    var tail := Spaces(n) + rest;
    var line := FormatPrefix(gs) + tail;
    assert FormatPrefix(gs) + Spaces(n) + rest == line;
    PrefixOfLine(gs, tail);
    LeadingSpacesOf(n, rest);
    assert tail[n..] == rest;
    assert !(|line| < PrefixLength || !PrefixMatches(line));
    var r := ParsePrefix(line);
    assert r == Some((PrefixGroups(line), line[PrefixLength..][LeadingSpaces(line[PrefixLength..])..]));
  }

  lemma PrefixOfLine(gs: seq<string>, tail: string)
    requires WellFormedGroups(gs)
    ensures var line := FormatPrefix(gs) + tail;
      |line| >= PrefixLength && PrefixMatches(line) && PrefixGroups(line) == gs && line[PrefixLength..] == tail
  {
    var p := FormatPrefix(gs);
    FormatPrefixLayout(gs);
    var line := p + tail;
    assert line[..PrefixLength] == p;
    assert line[1..5] == gs[0] && line[6..8] == gs[1] && line[9..11] == gs[2];
    assert line[13..15] == gs[3] && line[16..18] == gs[4] && line[19..21] == gs[5];
    assert line[11..13] == ", " && line[21..26] == " UTC]";
    assert PrefixGroups(line) == gs;
  }

  lemma {:induction false} LeadingSpacesOf(n: nat, rest: string)
    requires rest == [] || rest[0] != ' '
    ensures LeadingSpaces(Spaces(n) + rest) == n
  {
    if n > 0 {
      assert (Spaces(n) + rest)[1..] == Spaces(n - 1) + rest;
      LeadingSpacesOf(n - 1, rest);
    }
  }

  /** The six groups the server prints for a datetime. */
  function ShowGroups(t: DateTime): (gs: seq<string>)
    requires ValidDateTime(t)
    ensures WellFormedGroups(gs)
  {
    [ShowDigits(t.date.year, 4), ShowDigits(t.date.month, 2), ShowDigits(t.date.day, 2),
     ShowDigits(t.hour, 2), ShowDigits(t.minute, 2), ShowDigits(t.second, 2)]
  }

  /** datetimeFromRegex inverts the server's timestamp printing for every datetime it can print. */
  lemma DatetimeFromShowGroups(t: DateTime)
    requires ValidDateTime(t)
    ensures DatetimeFromGroups(ShowGroups(t)) == Ok(t)
  {
    var gs := ShowGroups(t);
    ParseShowDigits(t.date.year, 4);
    ParseShowDigits(t.date.month, 2);
    ParseShowDigits(t.date.day, 2);
    ParseShowDigits(t.hour, 2);
    ParseShowDigits(t.minute, 2);
    ParseShowDigits(t.second, 2);
    assert forall i | 0 <= i < 6 :: ParseInt(gs[i]).Ok?;
  }

  // ---------------------------------------------------------------------------
  // The nominal date of a log file, sliced out of its base name (analyze.py:87-91).

  /** `fileName.split("/")[-1]`, then `int()` of the slices [0:4], [5:7], [8:10] and `date(...)`. */
  function FileDate(fileName: string): (r: Result<Date>)
    ensures r.Ok? ==> ValidDate(r.value)
  {
    var base := AfterLast(fileName, '/');
    match ParseInt(Slice(base, 0, 4))
    case Err(f) => Err(f)
    case Ok(y) =>
      match ParseInt(Slice(base, 5, 7))
      case Err(f) => Err(f)
      case Ok(m) =>
        match ParseInt(Slice(base, 8, 10))
        case Err(f) => Err(f)
        case Ok(d) => MakeDate(y, m, d)
  }

  /** The server's file name for a day: `YYYY?MM?DD` and any suffix. */
  function DayFileName(d: Date, sep1: char, sep2: char, suffix: string): (name: string)
    requires ValidDate(d)
  {
    ShowDigits(d.year, 4) + [sep1] + ShowDigits(d.month, 2) + [sep2] + ShowDigits(d.day, 2) + suffix
  }

  lemma DayFileNameLayout(d: Date, sep1: char, sep2: char, suffix: string)
    requires ValidDate(d)
    requires sep1 != '/' && sep2 != '/' && '/' !in suffix
    ensures var name := DayFileName(d, sep1, sep2, suffix);
      '/' !in name && name[0..4] == ShowDigits(d.year, 4) && name[5..7] == ShowDigits(d.month, 2) &&
      name[8..10] == ShowDigits(d.day, 2)
  {
    var y, m, dd := ShowDigits(d.year, 4), ShowDigits(d.month, 2), ShowDigits(d.day, 2);
    var head := y + [sep1] + m + [sep2] + dd;
    assert |head| == 10;
    assert forall i | 0 <= i < 10 :: head[i] != '/' by {
      assert forall i | 0 <= i < 4 :: head[i] == y[i];
      assert forall i | 5 <= i < 7 :: head[i] == m[i - 5];
      assert forall i | 8 <= i < 10 :: head[i] == dd[i - 8];
    }
    var name := head + suffix;
    assert DayFileName(d, sep1, sep2, suffix) == name;
    assert forall i | 0 <= i < |name| :: name[i] != '/' by {
      assert forall i | 10 <= i < |name| :: name[i] == suffix[i - 10];
    }
    assert name[0..4] == y && name[5..7] == m && name[8..10] == dd;
  }

  /** A file named after its day, in any directory, yields that day; the characters at
      positions 4 and 7 and everything after position 10 are ignored. */
  lemma FileDateOfName(dir: string, d: Date, sep1: char, sep2: char, suffix: string)
    requires ValidDate(d)
    requires dir == [] || dir[|dir| - 1] == '/'
    requires sep1 != '/' && sep2 != '/' && '/' !in suffix
    ensures FileDate(dir + DayFileName(d, sep1, sep2, suffix)) == Ok(d)
  {
    var name := DayFileName(d, sep1, sep2, suffix);
    DayFileNameLayout(d, sep1, sep2, suffix);
    AfterLastOfName(dir, name);
    ParseShowDigits(d.year, 4);
    ParseShowDigits(d.month, 2);
    ParseShowDigits(d.day, 2);
  }

  lemma AfterLastOfName(dir: string, name: string)
    requires dir == [] || dir[|dir| - 1] == '/'
    requires '/' !in name
    ensures AfterLast(dir + name, '/') == name
  {
    var s := dir + name;
    assert s[|s| - |name|..] == name;
    assert forall i | |dir| <= i < |s| :: s[i] == name[i - |dir|];
  }
}
