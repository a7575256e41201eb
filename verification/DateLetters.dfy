/** What each letter of a format prints, what a joined format prints, and dates read from texts nobody printed. */
module DateLetters {
  import opened Calendar
  import opened Common
  import opened DateText
  import opened DateFormat
  import opened DateRoundTrip

  // ----- one letter

  lemma OneToken(format: string, t: Token)
    requires format != "" && Place(format, 0, false) == (Some(t), |format|, false)
    ensures Tokens(format, 0, false) == [t]
  {
    assert Tokens(format, |format|, false) == [];
  }

  lemma OnePrinted(format: string, t: Token, d: Date, names: Names)
    requires Valid(d) && Complete(names)
    requires format != "" && Place(format, 0, false) == (Some(t), |format|, false)
    ensures Format(format, d, names) == Printed(t, d, names)
  {
    OneToken(format, t);
    assert PrintedAll([t][1..], d, names) == "";
    assert PrintedAll([t], d, names) == Printed(t, d, names) + "";
  }

  /** The letters that print numbers. */
  lemma NumberLetters(d: Date, names: Names)
    requires Valid(d) && Complete(names) && d.year >= 100
    ensures Format("d", d, names) == Decimal(d.day) && Format("dd", d, names) == Padded(Decimal(d.day), 2)
    ensures Format("m", d, names) == Decimal(d.month) && Format("mm", d, names) == Padded(Decimal(d.month), 2)
    ensures Format("o", d, names) == Decimal(DayOfYear(d)) && Format("oo", d, names) == Padded(Decimal(DayOfYear(d)), 3)
  {
    OnePrinted("d", DayNum(false), d, names);
    OnePrinted("dd", DayNum(true), d, names);
    OnePrinted("m", MonthNum(false), d, names);
    OnePrinted("mm", MonthNum(true), d, names);
    OnePrinted("o", OrdinalDay(false), d, names);
    OnePrinted("oo", OrdinalDay(true), d, names);
    OrdinalShownIs(d);
  }

  lemma YearLetters(d: Date, names: Names)
    requires Valid(d) && Complete(names)
    ensures Format("yy", d, names) == Decimal(d.year)
    ensures TwoDigits(d.year) ==> Format("y", d, names) == Padded(Decimal(d.year % 100), 2)
  {
    OnePrinted("y", Year(false), d, names);
    OnePrinted("yy", Year(true), d, names);
    if TwoDigits(d.year) {
      RecentYears(d.year);
      TwoPlaces(d.year % 100);
    }
  }

  /** The letters that print names: of the weekday, counted from Sunday, and of the month. */
  lemma NameLetters(d: Date, names: Names)
    requires Valid(d) && Complete(names)
    ensures Format("D", d, names) == names.dayShort[Weekday(d)] && Format("DD", d, names) == names.dayLong[Weekday(d)]
    ensures Format("M", d, names) == names.monthShort[d.month - 1]
    ensures Format("MM", d, names) == names.monthLong[d.month - 1]
  {
    OnePrinted("D", DayName(false), d, names);
    OnePrinted("DD", DayName(true), d, names);
    OnePrinted("M", MonthName(false), d, names);
    OnePrinted("MM", MonthName(true), d, names);
  }

  /** Any other character stands for itself. */
  lemma OtherCharacters(c: char, d: Date, names: Names)
    requires Valid(d) && Complete(names) && c !in "dDomMy@!'"
    ensures Format([c], d, names) == [c]
  {
    OnePrinted([c], Lit(c), d, names);
  }

  // ----- joined formats

  /** From position i on, the format ends outside quotes. */
  predicate Closes(format: string, i: nat, literal: bool)
    requires i <= |format|
    decreases |format| - i
  {
    if i == |format| then !literal else var (t, next, inside) := Place(format, i, literal); Closes(format, next, inside)
  }

  predicate NoPairAcross(f: string, g: string) {
    f == "" || g == "" || f[|f| - 1] != g[0]
  }

  lemma TokensOn(format: string, i: nat, literal: bool)
    requires i < |format|
    ensures var (t, next, inside) := Place(format, i, literal);
      Tokens(format, i, literal) == (if t.None? then [] else [t.value]) + Tokens(format, next, inside)
  {
  }

  lemma PlaceInJoined(f: string, g: string, i: nat, literal: bool)
    requires i < |f| && NoPairAcross(f, g)
    ensures Place(f + g, i, literal) == Place(f, i, literal)
  {
    assert (f + g)[i] == f[i];
    assert i + 1 < |f| ==> (f + g)[i + 1] == f[i + 1];
    assert i + 1 == |f| && g != "" ==> (f + g)[i + 1] == g[0];
  }

  lemma PlaceShift(f: string, g: string, j: nat, literal: bool)
    requires j < |g|
    ensures var (t, next, inside) := Place(g, j, literal); Place(f + g, |f| + j, literal) == (t, |f| + next, inside)
  {
    assert (f + g)[|f| + j] == g[j];
    assert j + 1 < |g| ==> (f + g)[|f| + j + 1] == g[j + 1];
  }

  lemma {:induction false} TokensShift(f: string, g: string, j: nat, literal: bool)
    requires j <= |g|
    ensures Tokens(f + g, |f| + j, literal) == Tokens(g, j, literal)
    decreases |g| - j
  {
    if j < |g| {
      var (t, next, inside) := Place(g, j, literal);
      TokensShift(f, g, next, inside);
      PlaceShift(f, g, j, literal);
      TokensOn(f + g, |f| + j, literal);
      TokensOn(g, j, literal);
    }
  }

  lemma TokensAssociate(a: seq<Token>, b: seq<Token>, c: seq<Token>)
    ensures a + (b + c) == a + b + c
  {
  }

  lemma {:induction false} TokensJoin(f: string, g: string, i: nat, literal: bool)
    requires i <= |f| && Closes(f, i, literal) && NoPairAcross(f, g)
    ensures Tokens(f + g, i, literal) == Tokens(f, i, literal) + Tokens(g, 0, false)
    decreases |f| - i
  {
    if i == |f| {
      TokensShift(f, g, 0, literal);
    } else {
      var (t, next, inside) := Place(f, i, literal);
      TokensJoin(f, g, next, inside);
      PlaceInJoined(f, g, i, literal);
      TokensOn(f + g, i, literal);
      TokensOn(f, i, literal);
      TokensAssociate(if t.None? then [] else [t.value], Tokens(f, next, inside), Tokens(g, 0, false));
    }
  }

  lemma {:induction false} PrintedJoin(ts: seq<Token>, us: seq<Token>, d: Date, names: Names)
    requires Valid(d) && Complete(names)
    ensures PrintedAll(ts + us, d, names) == PrintedAll(ts, d, names) + PrintedAll(us, d, names)
  {
    if ts == [] {
      assert ts + us == us;
    } else {
      assert (ts + us)[1..] == ts[1..] + us;
      PrintedJoin(ts[1..], us, d, names);
    }
  }

  /** A format made of two prints what the two print, unless the seam splits a pair or lies within quotes. */
  lemma FormatsJoin(f: string, g: string, d: Date, names: Names)
    requires Valid(d) && Complete(names) && Closes(f, 0, false) && NoPairAcross(f, g)
    ensures Format(f + g, d, names) == Format(f, d, names) + Format(g, d, names)
  {
    TokensJoin(f, g, 0, false);
    PrintedJoin(Tokens(f, 0, false), Tokens(g, 0, false), d, names);
  }

  // ----- texts nobody printed

  const MONTH_DAY_YEAR: seq<Token> := [MonthNum(true), Lit('/'), DayNum(true), Lit('/'), Year(true)]

  lemma MonthDayYear()
    ensures Tokens("mm/dd/yy", 0, false) == MONTH_DAY_YEAR
  {
    var f := "mm/dd/yy";
    assert Tokens(f, 8, false) == [];
    assert Tokens(f, 6, false) == [Year(true)];
    assert Tokens(f, 5, false) == [Lit('/'), Year(true)];
    assert Tokens(f, 3, false) == [DayNum(true), Lit('/'), Year(true)];
    assert Tokens(f, 2, false) == [Lit('/'), DayNum(true), Lit('/'), Year(true)];
  }

  /** A number of one or two digits, and what stands behind it. */
  lemma ShortNumber(text: string, at: nat, number: string, rest: string)
    requires at <= |text| && text[at..] == number + rest
    requires 1 <= |number| <= 2 && AllDigits(number) && (|number| == 2 || NoDigitFirst(rest))
    ensures NumberAt(text, at, 1, 2) == Some((Value(number), at + |number|)) && text[at + |number|..] == rest
  {
    DigitRunIs(text, at, number, rest, 2);
    RestOfText(text, at, number, rest);
    assert text[at..at + |number|] == text[at..][..|number|] == number;
  }

  lemma ReadsDayAndYear(text: string, at: nat, day: string, year: string, f: Fields, names: Names, lower: char -> char)
    requires at <= |text| && text[at..] == day + ("/" + year)
    requires 1 <= |day| <= 2 && |year| == 4 && AllDigits(day) && AllDigits(year)
    ensures ReadAll(MONTH_DAY_YEAR[2..], text, at, f, names, lower) ==
      Reading(|text|, f.(day := Value(day), year := Value(year)))
  {
    var ts, b := MONTH_DAY_YEAR, at + |day|;
    ShortNumber(text, at, day, "/" + year);
    RestOfText(text, b, "/", year);
    YearToTheEnd(text, b + 1, year);
    var g := f.(day := Value(day));
    var h := g.(year := Value(year));
    assert ReadAll(ts[5..], text, |text|, h, names, lower) == Reading(|text|, h);
    ReadOn(ts[4..], text, b + 1, g, names, lower, |text|, h, Reading(|text|, h));
    ReadOn(ts[3..], text, b, g, names, lower, b + 1, g, Reading(|text|, h));
    ReadOn(ts[2..], text, at, f, names, lower, b, g, Reading(|text|, h));
  }

  lemma ReadsMonthDayYear(text: string, month: string, day: string, year: string, names: Names, lower: char -> char)
    requires text == month + ("/" + (day + ("/" + year)))
    requires 1 <= |month| <= 2 && 1 <= |day| <= 2 && |year| == 4
    requires AllDigits(month) && AllDigits(day) && AllDigits(year)
    ensures ReadAll(MONTH_DAY_YEAR, text, 0, NOTHING, names, lower) ==
      Reading(|text|, Fields(Value(year), Value(month), Value(day), -1))
  {
    var ts, a := MONTH_DAY_YEAR, |month|;
    assert text[0..] == text;
    ShortNumber(text, 0, month, "/" + (day + ("/" + year)));
    RestOfText(text, a, "/", day + ("/" + year));
    var f := NOTHING.(month := Value(month));
    var r := Reading(|text|, f.(day := Value(day), year := Value(year)));
    ReadsDayAndYear(text, a + 1, day, year, f, names, lower);
    ReadOn(ts[1..], text, a, f, names, lower, a + 1, f, r);
    ReadOn(ts, text, 0, NOTHING, names, lower, a, f, r);
  }

  lemma ParsedByTokens(format: string, ts: seq<Token>, text: string, f: Fields, settings: Settings, now: int,
                       lower: char -> char)
    requires Tokens(format, 0, false) == ts && text != ""
    requires ReadAll(ts, text, 0, NOTHING, settings.names, lower) == Reading(|text|, f)
    ensures Parse(format, text, settings, now, lower) == Finish(f, now, EffectiveCutoff(settings.cutoff, now))
  {
  }

  /** Fewer digits than would be printed are read all the same: any month, day and four-digit year between slashes. */
  lemma ReadsLeniently(month: string, day: string, year: string, settings: Settings, now: int, lower: char -> char)
    requires 1 <= |month| <= 2 && 1 <= |day| <= 2 && |year| == 4
    requires AllDigits(month) && AllDigits(day) && AllDigits(year)
    ensures Parse("mm/dd/yy", month + ("/" + (day + ("/" + year))), settings, now, lower) ==
      Finish(Fields(Value(year), Value(month), Value(day), -1), now, EffectiveCutoff(settings.cutoff, now))
  {
    var text := month + ("/" + (day + ("/" + year)));
    MonthDayYear();
    ReadsMonthDayYear(text, month, day, year, settings.names, lower);
    ParsedByTokens("mm/dd/yy", MONTH_DAY_YEAR, text, Fields(Value(year), Value(month), Value(day), -1), settings, now,
                   lower);
  }

  lemma YearToTheEnd(text: string, at: nat, year: string)
    requires at <= |text| && text[at..] == year && |year| == 4 && AllDigits(year)
    ensures NumberAt(text, at, 4, 4) == Some((Value(year), |text|)) && at + 4 == |text|
  {
    assert text[at..] == year + "";
    DigitRunIs(text, at, year, "", 4);
    assert text[at..at + 4] == year;
  }

  lemma OneRefuses(format: string, t: Token, text: string, e: Error, settings: Settings, now: int,
                   lower: char -> char)
    requires format != "" && Place(format, 0, false) == (Some(t), |format|, false) && text != ""
    requires Read(t, text, 0, NOTHING, settings.names, lower) == Failed(e)
    ensures Parse(format, text, settings, now, lower) == Thrown(e)
  {
    OneToken(format, t);
  }

  /** A text without a digit where a number is due is refused, and one with too few digits for a full year. */
  lemma NumberRefused(text: string, settings: Settings, now: int, lower: char -> char)
    requires text != ""
    ensures !IsDigit(text[0]) ==> Parse("d", text, settings, now, lower) == Thrown(MissingNumber(0))
    ensures !IsDigit(text[0]) ==> Parse("m", text, settings, now, lower) == Thrown(MissingNumber(0))
    ensures !IsDigit(text[0]) ==> Parse("o", text, settings, now, lower) == Thrown(MissingNumber(0))
    ensures DigitRun(text, 0, 4) < 4 ==> Parse("yy", text, settings, now, lower) == Thrown(MissingNumber(0))
  {
    if !IsDigit(text[0]) {
      OneRefuses("d", DayNum(false), text, MissingNumber(0), settings, now, lower);
      OneRefuses("m", MonthNum(false), text, MissingNumber(0), settings, now, lower);
      OneRefuses("o", OrdinalDay(false), text, MissingNumber(0), settings, now, lower);
    }
    if DigitRun(text, 0, 4) < 4 {
      OneRefuses("yy", Year(true), text, MissingNumber(0), settings, now, lower);
    }
  }

  /** So is another character than the format has, and a text with none of the names. */
  lemma TextRefused(c: char, text: string, settings: Settings, now: int, lower: char -> char)
    requires text != "" && c !in "dDomMy@!'"
    ensures text[0] != c ==> Parse([c], text, settings, now, lower) == Thrown(UnexpectedLiteral(0))
    ensures FindName(settings.names.dayShort, text, 0, lower).None? ==>
      Parse("D", text, settings, now, lower) == Thrown(UnknownName(0))
  {
    if text[0] != c {
      OneRefuses([c], Lit(c), text, UnexpectedLiteral(0), settings, now, lower);
    }
    if FindName(settings.names.dayShort, text, 0, lower).None? {
      OneRefuses("D", DayName(false), text, UnknownName(0), settings, now, lower);
    }
  }
}
