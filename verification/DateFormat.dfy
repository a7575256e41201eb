/** The format language of the datepicker, and what printing and reading a date by it means. */
module DateFormat {
  import opened Calendar
  import opened Common
  import opened DateText

  /** What one place of a format stands for; the flag is whether the letter is doubled. */
  datatype Token =
    | DayNum(padded: bool)
    | DayName(long: bool)
    | OrdinalDay(padded: bool)
    | MonthNum(padded: bool)
    | MonthName(long: bool)
    | Year(long: bool)
    | Stamp(ch: char)      // '@' and '!', which need the clock behind the date
    | Lit(ch: char)

  predicate Doubled(format: string, i: nat) {
    i + 1 < |format| && format[i + 1] == format[i]
  }

  function Letter(c: char, twice: bool): Token {
    match c
    case 'd' => DayNum(twice)
    case 'D' => DayName(twice)
    case 'o' => OrdinalDay(twice)
    case 'm' => MonthNum(twice)
    case 'M' => MonthName(twice)
    case _ => Year(twice)
  }

  predicate IsLetter(c: char) {
    c == 'd' || c == 'D' || c == 'o' || c == 'm' || c == 'M' || c == 'y'
  }

  /** What the place at i stands for, inside quotes or not, and where and how the format goes on. */
  function Place(format: string, i: nat, literal: bool): (r: (Option<Token>, nat, bool))
    requires i < |format|
    ensures i < r.1 <= |format|
  {
    var c := format[i];
    var twice := Doubled(format, i);
    if c == '\'' then
      if twice then (Some(Lit(c)), i + 2, literal) else (None, i + 1, !literal)
    else if literal then (Some(Lit(c)), i + 1, true)
    else if IsLetter(c) then (Some(Letter(c, twice)), if twice then i + 2 else i + 1, false)
    else if c == '@' || c == '!' then (Some(Stamp(c)), i + 1, false)
    else (Some(Lit(c)), i + 1, false)
  }

  /** The tokens of a format from a position on, inside quotes or not. */
  function Tokens(format: string, i: nat, literal: bool): seq<Token>
    requires i <= |format|
    decreases |format| - i
  {
    if i == |format| then []
    else
      var (t, next, inside) := Place(format, i, literal);
      if t.None? then Tokens(format, next, inside) else [t.value] + Tokens(format, next, inside)
  }

  ghost predicate NoStamps(ts: seq<Token>) {
    forall i :: 0 <= i < |ts| ==> !ts[i].Stamp?
  }

  datatype Names = Names(dayShort: seq<string>, dayLong: seq<string>, monthShort: seq<string>, monthLong: seq<string>)

  function Days(names: Names, long: bool): seq<string> {
    if long then names.dayLong else names.dayShort
  }

  function Months(names: Names, long: bool): seq<string> {
    if long then names.monthLong else names.monthShort
  }

  /** Seven day names from Sunday on and twelve month names, short and long. */
  predicate Complete(names: Names) {
    |names.dayShort| == 7 && |names.dayLong| == 7 && |names.monthShort| == 12 && |names.monthLong| == 12
  }

  // ----- printing

  /** Remainder with the sign of the dividend, as in JavaScript. */
  function Rem(a: int, b: int): int
    requires b > 0
  {
    if a < 0 then -((-a) % b) else a % b
  }

  /** The two digits of a year: getYear() counts from 1900. */
  function ShortYear(year: int): string {
    (if Rem(year - 1900, 100) < 10 then "0" else "") + Decimal(Rem(year - 1900, 100))
  }

  /** Days since the last day of the previous year, both dates made by the host. */
  function OrdinalShown(d: Date): int {
    DayNumber(MakeDate(d.year, d.month - 1, d.day)) - DayNumber(MakeDate(d.year, 0, 0))
  }

  function Number(n: int, padded: bool, length: nat): string {
    if padded then Padded(Decimal(n), length) else Decimal(n)
  }

  function Printed(t: Token, d: Date, names: Names): string
    requires Valid(d) && Complete(names)
  {
    match t
    case DayNum(padded) => Number(d.day, padded, 2)
    case DayName(long) => Days(names, long)[Weekday(d)]
    case OrdinalDay(padded) => Number(OrdinalShown(d), padded, 3)
    case MonthNum(padded) => Number(d.month, padded, 2)
    case MonthName(long) => Months(names, long)[d.month - 1]
    case Year(long) => if long then Decimal(d.year) else ShortYear(d.year)
    case Stamp(_) => ""
    case Lit(ch) => [ch]
  }

  function PrintedAll(ts: seq<Token>, d: Date, names: Names): string
    requires Valid(d) && Complete(names)
  {
    if ts == [] then "" else Printed(ts[0], d, names) + PrintedAll(ts[1..], d, names)
  }

  // ----- reading

  /** What has been read so far; -1 for what has not. */
  datatype Fields = Fields(year: int, month: int, day: int, doy: int)

  const NOTHING := Fields(-1, -1, -1, -1)

  datatype Error =
    | MissingNumber(at: nat)
    | UnknownName(at: nat)
    | UnexpectedLiteral(at: nat)
    | ExtraCharacters(rest: string)
    | InvalidDate

  /** Where reading goes on, with what; or what was thrown. */
  datatype Reading = Reading(at: nat, fields: Fields) | Failed(error: Error)

  /** A number of min to size digits. */
  function NumberAt(text: string, at: nat, min: nat, size: nat): Option<(int, nat)>
    requires at <= |text|
  {
    var n := DigitRun(text, at, size);
    if n < min then None else Some((Value(text[at..at + n]), at + n))
  }

  function Read(t: Token, text: string, at: nat, f: Fields, names: Names, lower: char -> char): (r: Reading)
    requires at <= |text|
    ensures r.Reading? ==> at <= r.at <= |text|
  {
    match t
    case DayNum(_) =>
      (match NumberAt(text, at, 1, 2)
       case None => Failed(MissingNumber(at))
       case Some((n, next)) => Reading(next, f.(day := n)))
    case MonthNum(_) =>
      (match NumberAt(text, at, 1, 2)
       case None => Failed(MissingNumber(at))
       case Some((n, next)) => Reading(next, f.(month := n)))
    case OrdinalDay(_) =>
      (match NumberAt(text, at, 1, 3)
       case None => Failed(MissingNumber(at))
       case Some((n, next)) => Reading(next, f.(doy := n)))
    case Year(long) =>
      var size := if long then 4 else 2;
      (match NumberAt(text, at, size, size)
       case None => Failed(MissingNumber(at))
       case Some((n, next)) => Reading(next, f.(year := n)))
    case DayName(long) =>
      (match FindName(Days(names, long), text, at, lower)
       case None => Failed(UnknownName(at))
       case Some(k) => Reading(at + |Days(names, long)[k]|, f))
    case MonthName(long) =>
      (match FindName(Months(names, long), text, at, lower)
       case None => Failed(UnknownName(at))
       case Some(k) => Reading(at + |Months(names, long)[k]|, f.(month := k + 1)))
    case Stamp(_) => Failed(InvalidDate)
    case Lit(ch) =>
      if at < |text| && text[at] == ch then Reading(at + 1, f) else Failed(UnexpectedLiteral(at))
  }

  function ReadAll(ts: seq<Token>, text: string, at: nat, f: Fields, names: Names, lower: char -> char): (r: Reading)
    requires at <= |text|
    ensures r.Reading? ==> at <= r.at <= |text|
  {
    if ts == [] then Reading(at, f)
    else
      match Read(ts[0], text, at, f, names, lower)
      case Failed(e) => Failed(e)
      case Reading(next, g) => ReadAll(ts[1..], text, next, g, names, lower)
  }

  // ----- from fields to a date

  /** shortYearCutoff: a number, or a string counted from the current year. */
  datatype Cutoff = Fixed(n: int) | Relative(n: int)

  const DEFAULT_CUTOFF := Relative(10)

  /** The number 0 counts as not given. */
  function EffectiveCutoff(cutoff: Cutoff, now: int): int {
    match if cutoff == Fixed(0) then DEFAULT_CUTOFF else cutoff
    case Fixed(n) => n
    case Relative(n) => Rem(now, 100) + n
  }

  function FullYear(year: int, now: int, cutoff: int): int {
    if year == -1 then now
    else if year < 100 then year + now - Rem(now, 100) + (if year <= cutoff then 0 else -100)
    else year
  }

  type Length = n: int | 1 <= n witness 1

  function MonthDays(year: int, month: int): Length {
    GetDaysInMonth(year, month - 1)
  }

  /** Month and day reached by taking whole months, of the given lengths, off a day count. */
  function Unroll(lengths: (int, int) -> Length, year: int, month: int, day: int): (int, int)
    decreases day
  {
    var dim := lengths(year, month);
    if day <= dim then (month, day) else Unroll(lengths, year, month + 1, day - dim)
  }

  datatype Outcome = Parsed(date: Date) | NullDate | Thrown(error: Error)

  function Finish(f: Fields, now: int, cutoff: int): Outcome {
    var year := FullYear(f.year, now, cutoff);
    var (month, day) := if f.doy > -1 then Unroll(MonthDays, year, 1, f.doy) else (f.month, f.day);
    var date := MakeDate(year, month - 1, day);
    if date != Date(year, month, day) then Thrown(InvalidDate) else Parsed(date)
  }

  /** \s of a regular expression. */
  predicate IsSpace(c: char) {
    var n := c as int;
    9 <= n <= 13 || n == 32 || n == 0xa0 || n == 0x1680 || 0x2000 <= n <= 0x200a || n == 0x2028 || n == 0x2029
    || n == 0x202f || n == 0x205f || n == 0x3000 || n == 0xfeff
  }

  datatype Settings = Settings(names: Names, cutoff: Cutoff)

  function Concluded(r: Reading, text: string, now: int, cutoff: Cutoff): Outcome
    requires r.Reading? ==> r.at <= |text|
  {
    match r
    case Failed(e) => Thrown(e)
    case Reading(at, f) =>
      if at < |text| && !IsSpace(text[at]) then Thrown(ExtraCharacters(text[at..]))
      else Finish(f, now, EffectiveCutoff(cutoff, now))
  }

  /** What formatDate and parseDate are to compute. */
  function Format(format: string, d: Date, names: Names): string
    requires Valid(d) && Complete(names)
  {
    PrintedAll(Tokens(format, 0, false), d, names)
  }

  function Parse(format: string, text: string, settings: Settings, now: int, lower: char -> char): Outcome {
    if text == "" then NullDate
    else
      var read := ReadAll(Tokens(format, 0, false), text, 0, NOTHING, settings.names, lower);
      Concluded(read, text, now, settings.cutoff)
  }
}
