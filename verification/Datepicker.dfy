/** formatDate and parseDate as loops over the characters of the format. */
module Datepicker {
  import opened Calendar
  import opened Common
  import opened DateText
  import opened DateFormat

  // ----- what is left of the format

  ghost predicate StampFree(format: string, i: nat, literal: bool)
    requires i <= |format|
  {
    NoStamps(Tokens(format, i, literal))
  }

  lemma StampFreeAhead(format: string, i: nat, literal: bool)
    requires i < |format| && StampFree(format, i, literal)
    ensures var (t, next, inside) := Place(format, i, literal);
      StampFree(format, next, inside) && (t.Some? ==> !t.value.Stamp?)
  {
    var (t, next, inside) := Place(format, i, literal);
    var ts := Tokens(format, i, literal);
    if t.Some? {
      assert ts[0] == t.value;
      assert forall k :: 0 <= k < |Tokens(format, next, inside)| ==> Tokens(format, next, inside)[k] == ts[k + 1];
    }
  }

  /** The text that the rest of the format gives. */
  ghost function Rest(format: string, i: nat, literal: bool, d: Date, names: Names): string
    requires i <= |format| && Valid(d) && Complete(names)
  {
    PrintedAll(Tokens(format, i, literal), d, names)
  }

  /** The text that one place of the format gives. */
  ghost function PlaceText(t: Option<Token>, d: Date, names: Names): string
    requires Valid(d) && Complete(names)
  {
    if t.Some? then Printed(t.value, d, names) else ""
  }

  lemma RestAhead(output: string, format: string, i: nat, literal: bool, d: Date, names: Names)
    requires i < |format| && Valid(d) && Complete(names)
    ensures var (t, next, inside) := Place(format, i, literal);
      output + PlaceText(t, d, names) + Rest(format, next, inside, d, names) ==
        output + Rest(format, i, literal, d, names)
  {
    var (t, next, inside) := Place(format, i, literal);
    if t.Some? {
      assert Tokens(format, i, literal)[1..] == Tokens(format, next, inside);
    }
  }

  /** What reading the rest of the format gives. */
  ghost function Reads(format: string, i: nat, literal: bool, text: string, at: nat, f: Fields, names: Names,
                       lower: char -> char): Reading
    requires i <= |format| && at <= |text|
  {
    ReadAll(Tokens(format, i, literal), text, at, f, names, lower)
  }

  lemma ReadsAhead(format: string, i: nat, literal: bool, text: string, at: nat, f: Fields, names: Names,
                   lower: char -> char)
    requires i < |format| && at <= |text|
    ensures var (t, next, inside) := Place(format, i, literal);
      Reads(format, i, literal, text, at, f, names, lower) ==
        if t.None? then Reads(format, next, inside, text, at, f, names, lower)
        else match Read(t.value, text, at, f, names, lower)
          case Failed(e) => Failed(e)
          case Reading(a, g) => Reads(format, next, inside, text, a, g, names, lower)
  {
    var (t, next, inside) := Place(format, i, literal);
    if t.Some? {
      assert Tokens(format, i, literal)[1..] == Tokens(format, next, inside);
    }
  }

  // ----- printing

  /** Skips a second occurrence of the format character, and says whether there was one. */
  method LookAhead(format: string, iFormat: nat, c: char) returns (matches: bool, next: nat)
    requires iFormat < |format| && format[iFormat] == c
    ensures matches == Doubled(format, iFormat)
    ensures next == (if matches then iFormat + 1 else iFormat) < |format| && format[next] == c
  {
    matches := iFormat + 1 < |format| && format[iFormat + 1] == c;
    next := if matches then iFormat + 1 else iFormat;
  }

  lemma {:induction false} ZerosSlide(n: nat)
    ensures Zeros(n) + "0" == "0" + Zeros(n)
  {
    if n == 0 {
      assert Zeros(0) + "0" == "0";
    } else {
      ZerosSlide(n - 1);
      assert Zeros(n) + "0" == "0" + (Zeros(n - 1) + "0");
    }
  }

  lemma PaddedStep(s: string, length: nat)
    requires |s| < length
    ensures Padded("0" + s, length) == Padded(s, length)
  {
    var n := length - |s| - 1;
    ZerosSlide(n);
    assert Zeros(n) + ("0" + s) == (Zeros(n) + "0") + s == Zeros(n + 1) + s;
  }

  method FormatNumber(doubled: bool, value: int, len: nat) returns (num: string)
    ensures num == Number(value, doubled, len)
  {
    num := Decimal(value);
    if doubled {
      while |num| < len
        invariant Padded(num, len) == Padded(Decimal(value), len)
      {
        PaddedStep(num, len);
        num := "0" + num;
      }
    }
  }

  method FormatLetter(c: char, doubled: bool, d: Date, names: Names) returns (text: string)
    requires IsLetter(c) && Valid(d) && Complete(names)
    ensures text == Printed(Letter(c, doubled), d, names)
  {
    match c {
      case 'd' => text := FormatNumber(doubled, d.day, 2);
      case 'D' => text := if doubled then names.dayLong[Weekday(d)] else names.dayShort[Weekday(d)];
      case 'o' => text := FormatNumber(doubled, OrdinalShown(d), 3);
      case 'm' => text := FormatNumber(doubled, d.month, 2);
      case 'M' => text := if doubled then names.monthLong[d.month - 1] else names.monthShort[d.month - 1];
      case _ =>
        var short := Rem(d.year - 1900, 100);
        text := if doubled then Decimal(d.year) else (if short < 10 then "0" else "") + Decimal(short);
    }
  }

  /** One turn of the loop: what the place of the format adds to the output, and where the next one starts. */
  method FormatPlace(format: string, start: nat, literal: bool, d: Date, names: Names)
    returns (text: string, next: nat, inside: bool)
    requires start < |format| && Valid(d) && Complete(names)
    requires Place(format, start, literal).0.Some? ==> !Place(format, start, literal).0.value.Stamp?
    ensures (next, inside) == (Place(format, start, literal).1, Place(format, start, literal).2)
    ensures text == PlaceText(Place(format, start, literal).0, d, names)
  {
    var c := format[start];
    var iFormat, doubled := start, false;
    text, inside := "", literal;
    if literal {
      if c == '\'' {
        doubled, iFormat := LookAhead(format, iFormat, '\'');
      }
      if c == '\'' && !doubled {
        inside := false;
      } else {
        text := [format[iFormat]];
      }
    } else if IsLetter(c) {
      doubled, iFormat := LookAhead(format, iFormat, c);
      text := FormatLetter(c, doubled, d, names);
    } else if c == '\'' {
      doubled, iFormat := LookAhead(format, iFormat, '\'');
      if doubled {
        text := "'";
      } else {
        inside := true;
      }
    } else {
      text := [format[iFormat]];
    }
    next := iFormat + 1;
  }

  method FormatDate(format: string, d: Date, names: Names) returns (output: string)
    requires Valid(d) && Complete(names) && NoStamps(Tokens(format, 0, false))
    ensures output == Format(format, d, names)
  {
    output := "";
    var literal, iFormat := false, 0;
    while iFormat < |format|
      invariant iFormat <= |format| && StampFree(format, iFormat, literal)
      invariant output + Rest(format, iFormat, literal, d, names) == Format(format, d, names)
      decreases |format| - iFormat
    {
      RestAhead(output, format, iFormat, literal, d, names);
      StampFreeAhead(format, iFormat, literal);
      var text, next, inside := FormatPlace(format, iFormat, literal, d, names);
      output := output + text;
      iFormat, literal := next, inside;
    }
  }

  // ----- reading

  method GetNumber(text: string, iValue: nat, minSize: nat, size: nat) returns (r: Option<(int, nat)>)
    requires iValue <= |text|
    ensures r == NumberAt(text, iValue, minSize, size)
    ensures r.Some? ==> r.value.1 <= |text|
  {
    var n := DigitRun(text, iValue, size);
    r := if n < minSize then None else Some((Value(text[iValue..iValue + n]), iValue + n));
  }

  /** The place of a letter: its number or name is read into the fields. */
  method ParseLetter(c: char, doubled: bool, text: string, iValue: nat, f: Fields, names: Names, lower: char -> char)
    returns (r: Reading)
    requires IsLetter(c) && iValue <= |text|
    ensures r == Read(Letter(c, doubled), text, iValue, f, names, lower)
    ensures r.Reading? ==> r.at <= |text|
  {
    if c == 'D' || c == 'M' {
      var table := if c == 'D' then Days(names, doubled) else Months(names, doubled);
      var index := FindName(table, text, iValue, lower);
      if index.None? {
        return Failed(UnknownName(iValue));
      }
      var next := iValue + |table[index.value]|;
      return Reading(next, if c == 'M' then f.(month := index.value + 1) else f);
    }
    var size := if c == 'y' && doubled then 4 else if c == 'o' then 3 else 2;
    var number := GetNumber(text, iValue, if c == 'y' then size else 1, size);
    if number.None? {
      return Failed(MissingNumber(iValue));
    }
    var (n, next) := number.value;
    match c {
      case 'd' => r := Reading(next, f.(day := n));
      case 'm' => r := Reading(next, f.(month := n));
      case 'o' => r := Reading(next, f.(doy := n));
      case _ => r := Reading(next, f.(year := n));
    }
  }

  method CheckLiteral(c: char, text: string, iValue: nat, f: Fields) returns (r: Reading)
    requires iValue <= |text|
    ensures r == if iValue < |text| && text[iValue] == c then Reading(iValue + 1, f)
                 else Failed(UnexpectedLiteral(iValue))
  {
    r := if iValue == |text| || text[iValue] != c then Failed(UnexpectedLiteral(iValue)) else Reading(iValue + 1, f);
  }

  /** One turn of the loop: what the place of the format reads. */
  method ParsePlace(format: string, start: nat, literal: bool, text: string, iValue: nat, f: Fields, names: Names,
                    lower: char -> char)
    returns (r: Reading, next: nat, inside: bool)
    requires start < |format| && iValue <= |text|
    requires Place(format, start, literal).0.Some? ==> !Place(format, start, literal).0.value.Stamp?
    ensures (next, inside) == (Place(format, start, literal).1, Place(format, start, literal).2)
    ensures r == match Place(format, start, literal).0
      case None => Reading(iValue, f)
      case Some(t) => Read(t, text, iValue, f, names, lower)
  {
    var c := format[start];
    var iFormat, doubled := start, false;
    r, inside := Reading(iValue, f), literal;
    if literal {
      if c == '\'' {
        doubled, iFormat := LookAhead(format, iFormat, '\'');
      }
      if c == '\'' && !doubled {
        inside := false;
      } else {
        r := CheckLiteral(format[iFormat], text, iValue, f);
      }
    } else if IsLetter(c) {
      doubled, iFormat := LookAhead(format, iFormat, c);
      r := ParseLetter(c, doubled, text, iValue, f, names, lower);
    } else if c == '\'' {
      doubled, iFormat := LookAhead(format, iFormat, '\'');
      if doubled {
        r := CheckLiteral(format[iFormat], text, iValue, f);
      } else {
        inside := true;
      }
    } else {
      r := CheckLiteral(format[iFormat], text, iValue, f);
    }
    next := iFormat + 1;
  }

  /** Reads the text along the format. */
  method Scan(format: string, text: string, names: Names, lower: char -> char) returns (r: Reading)
    requires NoStamps(Tokens(format, 0, false))
    ensures r == ReadAll(Tokens(format, 0, false), text, 0, NOTHING, names, lower)
  {
    r := Reading(0, NOTHING);
    var literal, iFormat := false, 0;
    while iFormat < |format|
      invariant iFormat <= |format| && StampFree(format, iFormat, literal)
      invariant r.Reading? && r.at <= |text|
      invariant Reads(format, iFormat, literal, text, r.at, r.fields, names, lower)
        == ReadAll(Tokens(format, 0, false), text, 0, NOTHING, names, lower)
      decreases |format| - iFormat
    {
      ReadsAhead(format, iFormat, literal, text, r.at, r.fields, names, lower);
      StampFreeAhead(format, iFormat, literal);
      var next, inside;
      r, next, inside := ParsePlace(format, iFormat, literal, text, r.at, r.fields, names, lower);
      if r.Failed? {
        return;
      }
      iFormat, literal := next, inside;
    }
  }

  /** The day-of-year loop. */
  method MonthOfDay(year: int, doy: int) returns (month: int, day: int)
    ensures (month, day) == Unroll(MonthDays, year, 1, doy)
  {
    month, day := 1, doy;
    var dim := GetDaysInMonth(year, month - 1);
    while day > dim
      invariant dim == GetDaysInMonth(year, month - 1)
      invariant Unroll(MonthDays, year, month, day) == Unroll(MonthDays, year, 1, doy)
      decreases day
    {
      month, day := month + 1, day - dim;
      dim := GetDaysInMonth(year, month - 1);
    }
  }

  /** The last part: century, day of the year, and whether the host has such a date. */
  method DateOf(f: Fields, now: int, cutoff: int) returns (r: Outcome)
    ensures r == Finish(f, now, cutoff)
  {
    var year, month, day := f.year, f.month, f.day;
    if year == -1 {
      year := now;
    } else if year < 100 {
      year := year + now - Rem(now, 100) + (if year <= cutoff then 0 else -100);
    }
    assert year == FullYear(f.year, now, cutoff);
    if f.doy > -1 {
      month, day := MonthOfDay(year, f.doy);
    }
    var date := MakeDate(year, month - 1, day);
    if date.year != year || date.month != month || date.day != day {
      return Thrown(InvalidDate);
    }
    r := Parsed(date);
  }

  method ParseDate(format: string, text: string, settings: Settings, now: int, lower: char -> char)
    returns (r: Outcome)
    requires NoStamps(Tokens(format, 0, false))
    ensures r == Parse(format, text, settings, now, lower)
  {
    if text == "" {
      return NullDate;
    }
    var scan := Scan(format, text, settings.names, lower);
    if scan.Failed? {
      return Thrown(scan.error);
    }
    if scan.at < |text| && !IsSpace(text[scan.at]) {
      return Thrown(ExtraCharacters(text[scan.at..]));
    }
    r := DateOf(scan.fields, now, EffectiveCutoff(settings.cutoff, now));
  }
}
