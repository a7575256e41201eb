/** Reading back what was printed, and what the format language can express. */
module DateRoundTrip {
  import opened Calendar
  import opened Common
  import opened DateText
  import opened DateFormat

  // ----- the conditions on a format

  /** The years that getYear() % 100 shows as two digits. */
  predicate TwoDigits(year: int) {
    year >= 1900 || year % 100 == 0
  }

  /**
   The token can be read back from its printed form when rest is printed behind it: an unpadded number of
   less than full width needs a non-digit or the end behind it, a name a prefix-free table, and a year its digits.
   */
  ghost predicate Legible(t: Token, d: Date, names: Names, lower: char -> char, rest: string) {
    match t
    case DayNum(padded) => padded || d.day >= 10 || NoDigitFirst(rest)
    case MonthNum(padded) => padded || d.month >= 10 || NoDigitFirst(rest)
    case OrdinalDay(padded) => padded || DayOfYear(d) >= 100 || NoDigitFirst(rest)
    case DayName(long) => PrefixFree(Days(names, long), lower)
    case MonthName(long) => PrefixFree(Months(names, long), lower)
    case Year(long) => if long then 1000 <= d.year <= 9999 else TwoDigits(d.year)
    case Stamp(_) => false
    case Lit(_) => true
  }

  ghost predicate AllLegible(ts: seq<Token>, d: Date, names: Names, lower: char -> char)
    requires Valid(d) && Complete(names)
  {
    ts == [] || (Legible(ts[0], d, names, lower, PrintedAll(ts[1..], d, names)) && AllLegible(ts[1..], d, names, lower))
  }

  /** The last year token, which is the one that counts: None, or whether it is doubled. */
  ghost function LastYear(ts: seq<Token>): Option<bool> {
    if ts == [] then None
    else if LastYear(ts[1..]).Some? then LastYear(ts[1..])
    else if ts[0].Year? then Some(ts[0].long)
    else None
  }

  ghost predicate HasDay(ts: seq<Token>) {
    ts != [] && (ts[0].DayNum? || HasDay(ts[1..]))
  }

  ghost predicate HasMonth(ts: seq<Token>) {
    ts != [] && (ts[0].MonthNum? || ts[0].MonthName? || HasMonth(ts[1..]))
  }

  ghost predicate HasOrdinal(ts: seq<Token>) {
    ts != [] && (ts[0].OrdinalDay? || HasOrdinal(ts[1..]))
  }

  /** The hundred years that two digits stand for. */
  predicate InWindow(year: int, now: int, cutoff: int) {
    var century := now - Rem(now, 100);
    var last := if cutoff < 0 then -1 else if cutoff > 99 then 99 else cutoff;
    century - 100 + last < year <= century + last
  }

  /** The year can be had from the format: four digits, two within the window, or none in the current year. */
  ghost predicate FixesYear(ts: seq<Token>, year: int, now: int, cutoff: int) {
    match LastYear(ts)
    case None => year == now
    case Some(long) => long || InWindow(year, now, cutoff)
  }

  ghost predicate FixesDay(ts: seq<Token>) {
    HasOrdinal(ts) || (HasDay(ts) && HasMonth(ts))
  }

  // ----- numbers of a date

  lemma EveOfYear(year: int)
    ensures DayNumber(MakeDate(year, 0, 0)) == DaysBeforeYear(HostYear(year))
  {
    ShiftCounts(Date(HostYear(year), 1, 1), -1);
  }

  /** "o" shows the day of the year of the date that the host makes. */
  lemma HostOrdinal(d: Date, h: Date)
    requires Valid(d) && h == MakeDate(d.year, d.month - 1, d.day)
    ensures h.year == HostYear(d.year) && OrdinalShown(d) == DayOfYear(h)
  {
    HostDate(d);
    EveOfYear(d.year);
  }

  lemma OrdinalShownIs(d: Date)
    requires Valid(d) && !(0 <= d.year <= 99)
    ensures OrdinalShown(d) == DayOfYear(d)
  {
    HostDate(d);
    HostOrdinal(d, d);
  }

  lemma RecentYearDigits(year: int)
    requires TwoDigits(year)
    ensures |ShortYear(year)| == 2 && AllDigits(ShortYear(year)) && Value(ShortYear(year)) == year % 100
  {
    RecentYears(year);
    TwoPlaces(year % 100);
    PaddedReads(year % 100, 2);
    DecimalLength(year % 100);
  }

  lemma RecentYears(year: int)
    requires TwoDigits(year)
    ensures Rem(year - 1900, 100) == year % 100
  {
  }

  lemma TwoPlaces(n: int)
    requires 0 <= n <= 99
    ensures (if n < 10 then "0" else "") + Decimal(n) == Padded(Decimal(n), 2)
  {
    DecimalLength(n);
    assert Zeros(1) == "0" + Zeros(0) == "0";
  }

  lemma EarlyYearSign(year: int)
    requires !TwoDigits(year)
    ensures |ShortYear(year)| > 1 && ShortYear(year)[1] == '-'
  {
    var n := Rem(year - 1900, 100);
    assert -100 < n < 0;
    assert Decimal(n)[0] == '-';
  }

  /** "y" shows two digits exactly for these years, and then they are the last two of the year. */
  lemma ShortYearReads(year: int)
    ensures |ShortYear(year)| == 2 && AllDigits(ShortYear(year)) <==> TwoDigits(year)
    ensures TwoDigits(year) ==> Value(ShortYear(year)) == year % 100
  {
    if TwoDigits(year) {
      RecentYearDigits(year);
    } else {
      EarlyYearSign(year);
    }
  }

  /** Two digits give the year back exactly when it lies in the window. */
  lemma WindowIsExact(year: int, now: int, cutoff: int)
    requires now >= 0
    ensures FullYear(year % 100, now, cutoff) == year <==> InWindow(year, now, cutoff)
  {
  }

  /** A cutoff counted from the current year makes two digits a year of the hundred that end n years from now. */
  lemma RelativeCutoff(y: int, n: int, now: int)
    requires 0 <= y < 100 && now >= 0 && 0 <= now % 100 + n < 100
    ensures var year := FullYear(y, now, EffectiveCutoff(Relative(n), now));
      now + n - 100 < year <= now + n && year % 100 == y
  {
  }

  /** In 2016 the default takes 26 for 2026 and 27 for 1927; 0 is no cutoff, other numbers are taken as they are. */
  lemma KnownCutoffs(now: int, m: int, year: int)
    requires now == 2016 && m > 0 && year >= 100
    ensures FullYear(26, now, EffectiveCutoff(Fixed(0), now)) == 2026
    ensures FullYear(27, now, EffectiveCutoff(Fixed(0), now)) == 1927
    ensures EffectiveCutoff(Fixed(m), now) == m && EffectiveCutoff(Fixed(-m), now) == -m
    ensures FullYear(-1, now, m) == now && FullYear(year, now, m) == year
  {
  }

  // ----- reading back

  /** The fields after reading back. */
  ghost function Shown(t: Token, d: Date, f: Fields): Fields {
    match t
    case DayNum(_) => f.(day := d.day)
    case MonthNum(_) => f.(month := d.month)
    case MonthName(_) => f.(month := d.month)
    case OrdinalDay(_) => f.(doy := DayOfYear(d))
    case Year(long) => f.(year := if long then d.year else d.year % 100)
    case _ => f
  }

  ghost function ShownAll(ts: seq<Token>, d: Date, f: Fields): Fields {
    if ts == [] then f else ShownAll(ts[1..], d, Shown(ts[0], d, f))
  }

  lemma NumberIs(number: string, min: nat, size: nat, text: string, at: nat, rest: string)
    requires AllDigits(number) && min <= |number| <= size && (|number| == size || NoDigitFirst(rest))
    requires at <= |text| && text[at..] == number + rest
    ensures NumberAt(text, at, min, size) == Some((Value(number), at + |number|))
  {
    DigitRunIs(text, at, number, rest, size);
    assert text[at..at + |number|] == text[at..][..|number|] == number;
  }

  lemma NumberReadsBack(n: int, padded: bool, size: nat, text: string, at: nat, rest: string)
    requires 0 <= n <= 9999 && |Decimal(n)| <= size
    requires padded || |Decimal(n)| == size || NoDigitFirst(rest)
    requires at <= |text| && text[at..] == Number(n, padded, size) + rest
    ensures NumberAt(text, at, 1, size) == Some((n, at + |Number(n, padded, size)|))
  {
    PaddedReads(n, size);
    DecimalReads(n);
    DecimalLength(n);
    NumberIs(Number(n, padded, size), 1, size, text, at, rest);
  }

  lemma TwoPlacesReadBack(n: int, padded: bool, text: string, at: nat, rest: string)
    requires 1 <= n <= 31 && (padded || n >= 10 || NoDigitFirst(rest))
    requires at <= |text| && text[at..] == Number(n, padded, 2) + rest
    ensures NumberAt(text, at, 1, 2) == Some((n, at + |Number(n, padded, 2)|))
  {
    DecimalLength(n);
    NumberReadsBack(n, padded, 2, text, at, rest);
  }

  lemma YearReadsBack(year: int, long: bool, text: string, at: nat, rest: string)
    requires if long then 1000 <= year <= 9999 else TwoDigits(year)
    requires at <= |text| && text[at..] == (if long then Decimal(year) else ShortYear(year)) + rest
    ensures |if long then Decimal(year) else ShortYear(year)| == if long then 4 else 2
    ensures NumberAt(text, at, if long then 4 else 2, if long then 4 else 2)
      == Some((if long then year else year % 100, at + if long then 4 else 2))
  {
    if long {
      DecimalReads(year);
      DecimalLength(year);
      NumberIs(Decimal(year), 4, 4, text, at, rest);
    } else {
      ShortYearReads(year);
      NumberIs(ShortYear(year), 2, 2, text, at, rest);
    }
  }

  lemma OrdinalReadsBack(d: Date, padded: bool, text: string, at: nat, rest: string)
    requires Valid(d) && d.year >= 100
    requires padded || DayOfYear(d) >= 100 || NoDigitFirst(rest)
    requires at <= |text| && text[at..] == Number(OrdinalShown(d), padded, 3) + rest
    ensures NumberAt(text, at, 1, 3) == Some((DayOfYear(d), at + |Number(OrdinalShown(d), padded, 3)|))
  {
    var n := OrdinalOf(d);
    ThreePlacesReadBack(n, padded, text, at, rest);
  }

  lemma OrdinalOf(d: Date) returns (n: int)
    requires Valid(d) && d.year >= 100
    ensures n == OrdinalShown(d) == DayOfYear(d) && 1 <= n <= 366
  {
    n := DayOfYear(d);
    OrdinalShownIs(d);
    DayOfYearRange(d);
  }

  lemma ThreePlacesReadBack(n: int, padded: bool, text: string, at: nat, rest: string)
    requires 1 <= n <= 366 && (padded || n >= 100 || NoDigitFirst(rest))
    requires at <= |text| && text[at..] == Number(n, padded, 3) + rest
    ensures NumberAt(text, at, 1, 3) == Some((n, at + |Number(n, padded, 3)|))
  {
    DecimalLength(n);
    NumberReadsBack(n, padded, 3, text, at, rest);
  }

  lemma NamesReadBack(t: Token, text: string, at: nat, f: Fields, d: Date, names: Names, lower: char -> char,
                      rest: string)
    requires Valid(d) && Complete(names) && (t.DayName? || t.MonthName? || t.Lit?)
    requires Legible(t, d, names, lower, rest)
    requires at <= |text| && text[at..] == Printed(t, d, names) + rest
    ensures Read(t, text, at, f, names, lower) == Reading(at + |Printed(t, d, names)|, Shown(t, d, f))
  {
    match t {
      case DayName(long) => NameIsFound(Days(names, long), Weekday(d), text, at, rest, lower);
      case MonthName(long) => NameIsFound(Months(names, long), d.month - 1, text, at, rest, lower);
      case Lit(ch) => assert text[at] == text[at..][0];
    }
  }

  lemma ReadsBack(t: Token, text: string, at: nat, f: Fields, d: Date, names: Names, lower: char -> char, rest: string)
    requires Valid(d) && Complete(names) && d.year >= 100
    requires Legible(t, d, names, lower, rest)
    requires at <= |text| && text[at..] == Printed(t, d, names) + rest
    ensures Read(t, text, at, f, names, lower) == Reading(at + |Printed(t, d, names)|, Shown(t, d, f))
  {
    match t {
      case DayNum(padded) => TwoPlacesReadBack(d.day, padded, text, at, rest);
      case MonthNum(padded) => TwoPlacesReadBack(d.month, padded, text, at, rest);
      case OrdinalDay(padded) => OrdinalReadsBack(d, padded, text, at, rest);
      case Year(long) => YearReadsBack(d.year, long, text, at, rest);
      case _ => NamesReadBack(t, text, at, f, d, names, lower, rest);
    }
  }

  lemma Associative(a: string, b: string, c: string)
    ensures a + b + c == a + (b + c)
  {
  }

  /** What is legible before a text is so before more text that does not begin with a digit. */
  lemma LegibleAhead(t: Token, d: Date, names: Names, lower: char -> char, rest: string, tail: string)
    requires Legible(t, d, names, lower, rest) && NoDigitFirst(tail)
    ensures Legible(t, d, names, lower, rest + tail)
  {
    assert rest != "" ==> (rest + tail)[0] == rest[0];
    assert rest == "" ==> rest + tail == tail;
  }

  lemma RestOfText(text: string, at: nat, printed: string, rest: string)
    requires at <= |text| && text[at..] == printed + rest
    ensures at + |printed| + |rest| == |text| && text[at + |printed|..] == rest
  {
    assert text[at + |printed|..] == text[at..][|printed|..];
  }

  lemma FirstReadsBack(t: Token, text: string, at: nat, f: Fields, d: Date, names: Names, lower: char -> char,
                       others: string, tail: string)
    requires Valid(d) && Complete(names) && d.year >= 100
    requires Legible(t, d, names, lower, others) && NoDigitFirst(tail)
    requires at <= |text| && text[at..] == Printed(t, d, names) + others + tail
    ensures var next := at + |Printed(t, d, names)|;
      && next <= |text| && text[next..] == others + tail
      && Read(t, text, at, f, names, lower) == Reading(next, Shown(t, d, f))
  {
    Associative(Printed(t, d, names), others, tail);
    LegibleAhead(t, d, names, lower, others, tail);
    ReadsBack(t, text, at, f, d, names, lower, others + tail);
    RestOfText(text, at, Printed(t, d, names), others + tail);
  }

  lemma ReadOn(ts: seq<Token>, text: string, at: nat, f: Fields, names: Names, lower: char -> char,
               next: nat, g: Fields, r: Reading)
    requires ts != [] && at <= next <= |text| && Read(ts[0], text, at, f, names, lower) == Reading(next, g)
    requires ReadAll(ts[1..], text, next, g, names, lower) == r
    ensures ReadAll(ts, text, at, f, names, lower) == r
  {
  }

  lemma {:induction false} ReadsAllBack(ts: seq<Token>, text: string, at: nat, f: Fields, d: Date, names: Names,
                                        lower: char -> char, tail: string)
    requires Valid(d) && Complete(names) && d.year >= 100
    requires AllLegible(ts, d, names, lower) && NoDigitFirst(tail)
    requires at <= |text| && text[at..] == PrintedAll(ts, d, names) + tail
    ensures ReadAll(ts, text, at, f, names, lower) == Reading(|text| - |tail|, ShownAll(ts, d, f))
  {
    if ts != [] {
      var next := at + |Printed(ts[0], d, names)|;
      FirstReadsBack(ts[0], text, at, f, d, names, lower, PrintedAll(ts[1..], d, names), tail);
      ReadsAllBack(ts[1..], text, next, Shown(ts[0], d, f), d, names, lower, tail);
      var r := Reading(|text| - |tail|, ShownAll(ts[1..], d, Shown(ts[0], d, f)));
      ReadOn(ts, text, at, f, names, lower, next, Shown(ts[0], d, f), r);
      assert ShownAll(ts, d, f) == r.fields;
    }
  }

  // ----- from the fields to the date

  lemma {:induction false} ShownFields(ts: seq<Token>, d: Date, f: Fields)
    ensures ShownAll(ts, d, f).year == match LastYear(ts)
      case None => f.year
      case Some(long) => if long then d.year else d.year % 100
    ensures ShownAll(ts, d, f).day == if HasDay(ts) then d.day else f.day
    ensures ShownAll(ts, d, f).month == if HasMonth(ts) then d.month else f.month
    ensures ShownAll(ts, d, f).doy == if HasOrdinal(ts) then DayOfYear(d) else f.doy
  {
    if ts != [] {
      ShownFields(ts[1..], d, Shown(ts[0], d, f));
    }
  }

  /** The lengths that the program computes for the months of its year are those of a real year. */
  ghost predicate TrueLengths(lengths: (int, int) -> Length, year: int, actual: int) {
    forall m :: 1 <= m <= 12 ==> lengths(year, m) == MonthLength(actual, m)
  }

  lemma MonthsLeft(lengths: (int, int) -> Length, year: int, d: Date, month: int, rest: int) returns (dim: int)
    requires Valid(d) && 1 <= month <= d.month && TrueLengths(lengths, year, d.year)
    requires rest == DayOfYear(d) - DaysBeforeMonth(d.year, month)
    ensures dim == lengths(year, month) && (rest <= dim <==> month == d.month)
    ensures month == d.month ==> rest == d.day
    ensures rest - dim == DayOfYear(d) - DaysBeforeMonth(d.year, month + 1)
  {
    dim := lengths(year, month);
    if month < d.month {
      DaysBeforeMonthGrows(d.year, month, d.month);
    }
  }

  lemma UnrollStep(lengths: (int, int) -> Length, year: int, month: int, day: int)
    ensures Unroll(lengths, year, month, day) == if day <= lengths(year, month) then (month, day)
      else Unroll(lengths, year, month + 1, day - lengths(year, month))
  {
  }

  /** Taking whole months off the day of the year gives month and day back. */
  lemma {:induction false} UnrollFrom(lengths: (int, int) -> Length, year: int, d: Date, month: int, rest: int)
    requires Valid(d) && 1 <= month <= d.month && TrueLengths(lengths, year, d.year)
    requires rest == DayOfYear(d) - DaysBeforeMonth(d.year, month)
    ensures Unroll(lengths, year, month, rest) == (d.month, d.day)
    decreases d.month - month
  {
    var dim := MonthsLeft(lengths, year, d, month, rest);
    if month < d.month {
      UnrollFrom(lengths, year, d, month + 1, rest - dim);
    }
    UnrollStep(lengths, year, month, rest);
  }

  lemma HostUnrolls(year: int, h: Date)
    requires Valid(h) && h.year == HostYear(year)
    ensures Unroll(MonthDays, year, 1, DayOfYear(h)) == (h.month, h.day)
  {
    forall m | 1 <= m <= 12
      ensures MonthDays(year, m) == MonthLength(h.year, m)
    {
      DaysInMonthIsLength(year, m - 1);
    }
    UnrollFrom(MonthDays, year, h, 1, DayOfYear(h));
  }

  /** The day-of-year loop inverts what "o" shows for every date there is, except for 29 February of year 0. */
  lemma OrdinalRoundTrip(d: Date)
    requires Valid(d)
    ensures Unroll(MonthDays, d.year, 1, OrdinalShown(d)) == (d.month, d.day) <==> d != Date(0, 2, 29)
  {
    var h := MakeDate(d.year, d.month - 1, d.day);
    HostDate(d);
    HostOrdinal(d, h);
    HostUnrolls(d.year, h);
  }

  lemma YearComesBack(ts: seq<Token>, d: Date, now: int, cutoff: int)
    requires now >= 0 && d.year >= 100
    ensures FullYear(ShownAll(ts, d, NOTHING).year, now, cutoff) == d.year <==> FixesYear(ts, d.year, now, cutoff)
  {
    ShownFields(ts, d, NOTHING);
    WindowIsExact(d.year, now, cutoff);
  }

  /** The fields make the date d exactly when they name it and the host does not take its year for 19xx. */
  lemma FinishIsExact(f: Fields, d: Date, now: int, cutoff: int)
    requires Valid(d)
    ensures Finish(f, now, cutoff) == Parsed(d) <==>
      && !(0 <= d.year <= 99) && FullYear(f.year, now, cutoff) == d.year
      && (if f.doy > -1 then Unroll(MonthDays, d.year, 1, f.doy) else (f.month, f.day)) == (d.month, d.day)
  {
    HostDate(d);
  }

  /** So no text gives a date of the years 0 to 99, whatever the format. */
  lemma EarlyYearsAreNeverParsed(format: string, text: string, d: Date, settings: Settings, now: int,
                                 lower: char -> char)
    requires Valid(d) && 0 <= d.year <= 99
    ensures Parse(format, text, settings, now, lower) != Parsed(d)
  {
    var read := ReadAll(Tokens(format, 0, false), text, 0, NOTHING, settings.names, lower);
    if read.Reading? {
      FinishIsExact(read.fields, d, now, EffectiveCutoff(settings.cutoff, now));
    }
  }

  lemma FinishGivesDate(ts: seq<Token>, d: Date, now: int, cutoff: int)
    requires Valid(d) && d.year >= 100 && now >= 0
    ensures Finish(ShownAll(ts, d, NOTHING), now, cutoff) == Parsed(d)
      <==> FixesYear(ts, d.year, now, cutoff) && FixesDay(ts)
  {
    YearComesBack(ts, d, now, cutoff);
    ShownFields(ts, d, NOTHING);
    FinishIsExact(ShownAll(ts, d, NOTHING), d, now, cutoff);
    OrdinalUnrolls(d);
  }

  lemma OrdinalUnrolls(d: Date)
    requires Valid(d) && d.year >= 100
    ensures DayOfYear(d) > 0 && Unroll(MonthDays, d.year, 1, DayOfYear(d)) == (d.month, d.day)
  {
    OrdinalRoundTrip(d);
    OrdinalShownIs(d);
    DayOfYearRange(d);
  }

  lemma DecimalNotEmpty(n: int)
    ensures Decimal(n) != ""
  {
  }

  lemma {:induction false} PrintsSomething(ts: seq<Token>, d: Date, names: Names)
    requires Valid(d) && Complete(names) && (HasDay(ts) || HasOrdinal(ts))
    ensures PrintedAll(ts, d, names) != ""
  {
    if HasDay(ts[1..]) || HasOrdinal(ts[1..]) {
      PrintsSomething(ts[1..], d, names);
    } else {
      DecimalNotEmpty(d.day);
      DecimalNotEmpty(OrdinalShown(d));
    }
  }

  /**
   Of a legible format, parseDate(f, formatDate(f, d)) is d exactly when the format fixes year and day:
   a four-digit year, a two-digit one within the window, or none in the current year; and the day of the
   year, or day and month.
   */
  lemma RoundTrip(format: string, d: Date, settings: Settings, now: int, lower: char -> char)
    requires Valid(d) && d.year >= 100 && now >= 0 && Complete(settings.names)
    requires AllLegible(Tokens(format, 0, false), d, settings.names, lower)
    ensures Parse(format, Format(format, d, settings.names), settings, now, lower) == Parsed(d)
      <==> FixesYear(Tokens(format, 0, false), d.year, now, EffectiveCutoff(settings.cutoff, now))
           && FixesDay(Tokens(format, 0, false))
  {
    var ts := Tokens(format, 0, false);
    var text := Format(format, d, settings.names);
    if FixesDay(ts) {
      PrintsSomething(ts, d, settings.names);
    }
    assert text[0..] == text + "";
    ReadsAllBack(ts, text, 0, NOTHING, d, settings.names, lower, "");
    FinishGivesDate(ts, d, now, EffectiveCutoff(settings.cutoff, now));
  }

  /** Text behind a printed date is refused, unless it begins with a space: then all of it is ignored. */
  lemma TrailingText(format: string, d: Date, tail: string, settings: Settings, now: int, lower: char -> char)
    requires Valid(d) && d.year >= 100 && now >= 0 && Complete(settings.names)
    requires AllLegible(Tokens(format, 0, false), d, settings.names, lower)
    requires tail != "" && !IsDigit(tail[0]) && Format(format, d, settings.names) != ""
    ensures Parse(format, Format(format, d, settings.names) + tail, settings, now, lower) ==
      if IsSpace(tail[0]) then Parse(format, Format(format, d, settings.names), settings, now, lower)
      else Thrown(ExtraCharacters(tail))
  {
    var ts := Tokens(format, 0, false);
    var text := Format(format, d, settings.names);
    assert text[0..] == text + "" && (text + tail)[0..] == text + tail;
    ReadsAllBack(ts, text, 0, NOTHING, d, settings.names, lower, "");
    ReadsAllBack(ts, text + tail, 0, NOTHING, d, settings.names, lower, tail);
    assert (text + tail)[|text|..] == tail;
  }

  // ----- formats whose numbers are set apart

  predicate Unpadded(t: Token) {
    (t.DayNum? || t.MonthNum? || t.OrdinalDay?) && !t.padded
  }

  /** Every unpadded number is followed by a non-digit of the format or the end; '@' and '!' do not occur. */
  predicate Separated(ts: seq<Token>) {
    ts == [] ||
    (&& !ts[0].Stamp?
     && (Unpadded(ts[0]) && |ts| > 1 ==> ts[1].Lit? && !IsDigit(ts[1].ch))
     && Separated(ts[1..]))
  }

  predicate YearsFit(ts: seq<Token>, year: int) {
    ts == [] ||
    (&& (ts[0].Year? ==> if ts[0].long then 1000 <= year <= 9999 else TwoDigits(year))
     && YearsFit(ts[1..], year))
  }

  ghost predicate TablesPrefixFree(names: Names, lower: char -> char) {
    && PrefixFree(names.dayShort, lower) && PrefixFree(names.dayLong, lower)
    && PrefixFree(names.monthShort, lower) && PrefixFree(names.monthLong, lower)
  }

  lemma {:induction false} SeparatedIsLegible(ts: seq<Token>, d: Date, names: Names, lower: char -> char)
    requires Valid(d) && Complete(names)
    requires Separated(ts) && YearsFit(ts, d.year) && TablesPrefixFree(names, lower)
    ensures AllLegible(ts, d, names, lower)
  {
    if ts != [] {
      SeparatedIsLegible(ts[1..], d, names, lower);
      if Unpadded(ts[0]) && |ts| > 1 {
        assert PrintedAll(ts[1..], d, names)[0] == ts[1].ch;
      }
    }
  }

  /** The round trip, with conditions on the format, the tables and the year alone. */
  lemma RoundTripSeparated(format: string, d: Date, settings: Settings, now: int, lower: char -> char)
    requires Valid(d) && d.year >= 100 && now >= 0 && Complete(settings.names)
    requires Separated(Tokens(format, 0, false)) && YearsFit(Tokens(format, 0, false), d.year)
    requires TablesPrefixFree(settings.names, lower)
    ensures Parse(format, Format(format, d, settings.names), settings, now, lower) == Parsed(d)
      <==> FixesYear(Tokens(format, 0, false), d.year, now, EffectiveCutoff(settings.cutoff, now))
           && FixesDay(Tokens(format, 0, false))
  {
    SeparatedIsLegible(Tokens(format, 0, false), d, settings.names, lower);
    RoundTrip(format, d, settings, now, lower);
  }

  lemma IsoTokens()
    ensures Tokens("yy-mm-dd", 0, false) == [Year(true), Lit('-'), MonthNum(true), Lit('-'), DayNum(true)]
  {
    var f := "yy-mm-dd";
    assert Tokens(f, 8, false) == [];
    assert Tokens(f, 6, false) == [DayNum(true)];
    assert Tokens(f, 5, false) == [Lit('-'), DayNum(true)];
    assert Tokens(f, 3, false) == [MonthNum(true), Lit('-'), DayNum(true)];
    assert Tokens(f, 2, false) == [Lit('-'), MonthNum(true), Lit('-'), DayNum(true)];
  }

  lemma IsoLegible(d: Date, names: Names, lower: char -> char)
    requires Valid(d) && 1000 <= d.year <= 9999 && Complete(names)
    ensures AllLegible([Year(true), Lit('-'), MonthNum(true), Lit('-'), DayNum(true)], d, names, lower)
  {
    var ts := [Year(true), Lit('-'), MonthNum(true), Lit('-'), DayNum(true)];
    assert AllLegible(ts[3..], d, names, lower) by {
      assert AllLegible(ts[3..][1..], d, names, lower);
    }
    assert ts[1..][1..][1..] == ts[3..];
  }

  lemma IsoFixesDate(year: int, now: int, cutoff: int)
    ensures var ts := [Year(true), Lit('-'), MonthNum(true), Lit('-'), DayNum(true)];
      FixesYear(ts, year, now, cutoff) && FixesDay(ts)
  {
    var ts := [Year(true), Lit('-'), MonthNum(true), Lit('-'), DayNum(true)];
    assert ts[1..][1..] == ts[2..];
    assert HasDay(ts[3..]) && HasDay(ts[2..]) && HasDay(ts[1..]);
    assert LastYear(ts[4..]).None? && LastYear(ts[3..]).None? && LastYear(ts[2..]).None?;
  }

  /** ISO_8601, ATOM and W3C: the round trip needs nothing of the names and only a four-digit year. */
  lemma IsoRoundTrip(d: Date, settings: Settings, now: int, lower: char -> char)
    requires Valid(d) && 1000 <= d.year <= 9999 && now >= 0 && Complete(settings.names)
    ensures Parse("yy-mm-dd", Format("yy-mm-dd", d, settings.names), settings, now, lower) == Parsed(d)
  {
    IsoTokens();
    IsoLegible(d, settings.names, lower);
    IsoFixesDate(d.year, now, EffectiveCutoff(settings.cutoff, now));
    RoundTrip("yy-mm-dd", d, settings, now, lower);
  }

  lemma UnpaddedTokens()
    ensures Tokens("dmyy", 0, false) == [DayNum(false), MonthNum(false), Year(true)]
  {
    assert Tokens("dmyy", 4, false) == [];
    assert Tokens("dmyy", 2, false) == [Year(true)];
    assert Tokens("dmyy", 1, false) == [MonthNum(false), Year(true)];
  }

  /** Why unpadded numbers have to be set apart: two dates, one text. */
  lemma UnpaddedIsAmbiguous(names: Names)
    requires Complete(names)
    ensures Format("dmyy", Date(2016, 1, 11), names) == Format("dmyy", Date(2016, 11, 1), names)
  {
    var ts := [DayNum(false), MonthNum(false), Year(true)];
    UnpaddedTokens();
    var d, e := Date(2016, 1, 11), Date(2016, 11, 1);
    assert Decimal(11) == "11" && Decimal(1) == "1";
    assert PrintedAll(ts[2..], d, names) == PrintedAll(ts[2..], e, names) == Decimal(2016) + "";
    assert PrintedAll(ts[1..], d, names) == "1" + PrintedAll(ts[2..], d, names);
    assert PrintedAll(ts[1..], e, names) == "11" + PrintedAll(ts[2..], d, names);
    assert PrintedAll(ts, d, names) == "11" + ("1" + PrintedAll(ts[2..], d, names));
    assert PrintedAll(ts, e, names) == "1" + ("11" + PrintedAll(ts[2..], d, names));
  }

  // ----- quoting

  function Escaped(text: string): string {
    if text == "" then ""
    else (if text[0] == '\'' then "''" else [text[0]]) + Escaped(text[1..])
  }

  function Lits(text: string): seq<Token> {
    if text == "" then [] else [Lit(text[0])] + Lits(text[1..])
  }

  ghost predicate AllQuotes(text: string) {
    forall i :: 0 <= i < |text| ==> text[i] == '\''
  }

  /** Inside quotes an escaped text stands for itself. */
  lemma {:induction false} InsideQuotes(format: string, i: nat, text: string)
    requires i <= |format| && format[i..] == Escaped(text) + "'"
    ensures Tokens(format, i, true) == Lits(text)
    decreases |text|
  {
    assert |format[i..]| == |format| - i;
    assert forall k :: 0 <= k < |format| - i ==> format[i + k] == format[i..][k];
    if text == "" {
      assert format[i] == '\'' && |format| == i + 1;
    } else if text[0] == '\'' {
      assert format[i] == '\'' && format[i + 1] == '\'';
      assert format[i + 2..] == format[i..][2..] == Escaped(text[1..]) + "'";
      InsideQuotes(format, i + 2, text[1..]);
    } else {
      assert format[i] == text[0];
      assert format[i + 1..] == format[i..][1..] == Escaped(text[1..]) + "'";
      InsideQuotes(format, i + 1, text[1..]);
    }
  }

  lemma {:induction false} LitsLength(text: string)
    ensures |Lits(text)| == |text|
  {
    if text != "" {
      LitsLength(text[1..]);
    }
  }

  /**
   A text put between quotes, its own quotes doubled, stands for itself exactly when it is not made of
   quotes alone; such a text, the empty one included, comes out one quote too long.
   */
  lemma {:induction false} QuotedText(format: string, i: nat, text: string)
    requires i <= |format| && format[i..] == "'" + Escaped(text) + "'"
    ensures Tokens(format, i, false) == if AllQuotes(text) then Lits(text + "'") else Lits(text)
    decreases |text|
  {
    assert |format[i..]| == |format| - i;
    assert forall k :: 0 <= k < |format| - i ==> format[i + k] == format[i..][k];
    if text == "" {
      assert format[i] == '\'' && format[i + 1] == '\'' && |format| == i + 2;
      assert text + "'" == "'";
      assert Tokens(format, i + 2, false) == [];
      assert Lits("'") == [Lit('\'')] + Lits("");
    } else if text[0] == '\'' {
      assert format[i] == '\'' && format[i + 1] == '\'';
      assert format[i + 2..] == format[i..][2..] == "'" + Escaped(text[1..]) + "'";
      QuotedText(format, i + 2, text[1..]);
      assert (text + "'")[1..] == text[1..] + "'";
      assert AllQuotes(text) <==> AllQuotes(text[1..]);
    } else {
      assert format[i + 1] == text[0];
      assert format[i + 1..] == format[i..][1..] == Escaped(text) + "'";
      InsideQuotes(format, i + 1, text);
    }
  }

  /** The same as an equivalence. */
  lemma QuotingIsExact(text: string)
    ensures Tokens("'" + Escaped(text) + "'", 0, false) == Lits(text) <==> !AllQuotes(text)
  {
    var format := "'" + Escaped(text) + "'";
    assert format[0..] == format;
    QuotedText(format, 0, text);
    LitsLength(text);
    LitsLength(text + "'");
  }
}
