/** Decimal numbers and name tables as the datepicker prints and reads them. */
module DateText {
  import opened Common

  // ----- digits

  predicate IsDigit(c: char) {
    '0' <= c <= '9'
  }

  function DigitOf(n: int): (c: char)
    requires 0 <= n <= 9
    ensures IsDigit(c)
  {
    "0123456789"[n]
  }

  function DigitValue(c: char): int {
    c as int - '0' as int
  }

  ghost predicate AllDigits(s: string) {
    forall i :: 0 <= i < |s| ==> IsDigit(s[i])
  }

  /** "" + n. */
  function Decimal(n: int): string
    decreases if n < 0 then 1 - n else n
  {
    if n < 0 then "-" + Decimal(-n)
    else if n < 10 then [DigitOf(n)]
    else Decimal(n / 10) + [DigitOf(n % 10)]
  }

  /** parseInt(s, 10) of a string of digits. */
  function Value(s: string): int {
    if s == "" then 0 else 10 * Value(s[..|s| - 1]) + DigitValue(s[|s| - 1])
  }

  function Zeros(n: nat): string {
    if n == 0 then "" else "0" + Zeros(n - 1)
  }

  /** Leading zeros up to the given length. */
  function Padded(s: string, length: nat): string {
    if |s| < length then Zeros(length - |s|) + s else s
  }

  lemma LastDigit(s: string, n: int)
    requires 0 <= n <= 9
    ensures Value(s + [DigitOf(n)]) == 10 * Value(s) + n
  {
    assert (s + [DigitOf(n)])[..|s|] == s;
  }

  lemma {:induction false} DecimalReads(n: int)
    requires n >= 0
    ensures AllDigits(Decimal(n)) && Value(Decimal(n)) == n
  {
    if n < 10 {
      LastDigit("", n);
      assert "" + [DigitOf(n)] == Decimal(n);
    } else {
      DecimalReads(n / 10);
      LastDigit(Decimal(n / 10), n % 10);
    }
  }

  lemma DecimalLength(n: int)
    requires 0 <= n <= 9999
    ensures |Decimal(n)| == if n < 10 then 1 else if n < 100 then 2 else if n < 1000 then 3 else 4
  {
    if n >= 10 {
      DecimalLength(n / 10);
    }
  }

  lemma {:induction false} ZerosRead(n: nat, s: string)
    requires AllDigits(s)
    ensures AllDigits(Zeros(n) + s) && Value(Zeros(n) + s) == Value(s) && |Zeros(n)| == n
  {
    if n == 0 {
      assert Zeros(n) + s == s;
    } else {
      ZerosRead(n - 1, s);
      assert Zeros(n) + s == "0" + (Zeros(n - 1) + s);
      LeadingZero(Zeros(n - 1) + s);
    }
  }

  lemma {:induction false} LeadingZero(s: string)
    ensures Value("0" + s) == Value(s)
  {
    if s != "" {
      LeadingZero(s[..|s| - 1]);
      assert ("0" + s)[..|s|] == "0" + s[..|s| - 1];
    }
  }

  /** Padding changes neither digits nor value and reaches the length asked for. */
  lemma PaddedReads(n: int, length: nat)
    requires 0 <= n <= 9999
    ensures AllDigits(Padded(Decimal(n), length)) && Value(Padded(Decimal(n), length)) == n
    ensures |Padded(Decimal(n), length)| == if |Decimal(n)| < length then length else |Decimal(n)|
  {
    DecimalReads(n);
    PaddedString(Decimal(n), length);
  }

  lemma PaddedString(s: string, length: nat)
    requires AllDigits(s)
    ensures AllDigits(Padded(s, length)) && Value(Padded(s, length)) == Value(s)
    ensures |Padded(s, length)| == if |s| < length then length else |s|
  {
    if |s| < length {
      ZerosRead(length - |s|, s);
    }
  }

  // ----- reading a number

  /** How many digits, at most size, stand at the position. */
  function DigitRun(text: string, at: nat, size: nat): (n: nat)
    ensures n <= size && (at <= |text| ==> at + n <= |text|)
    decreases size
  {
    if size == 0 || at >= |text| || !IsDigit(text[at]) then 0 else 1 + DigitRun(text, at + 1, size - 1)
  }

  predicate NoDigitFirst(rest: string) {
    rest == "" || !IsDigit(rest[0])
  }

  /** A printed number is read to its end if it has full width or no digit follows. */
  lemma {:induction false} DigitRunIs(text: string, at: nat, number: string, rest: string, size: nat)
    requires at <= |text| && text[at..] == number + rest
    requires AllDigits(number) && |number| <= size
    requires |number| == size || NoDigitFirst(rest)
    ensures DigitRun(text, at, size) == |number|
    decreases |number|
  {
    if number != "" {
      assert text[at] == text[at..][0] == number[0];
      assert text[at + 1..] == text[at..][1..] == number[1..] + rest;
      DigitRunIs(text, at + 1, number[1..], rest, size - 1);
    } else if rest != "" {
      assert text[at] == text[at..][0] == rest[0];
    }
  }

  // ----- names

  function Lowered(s: string, lower: char -> char): (r: string)
    ensures |r| == |s|
    ensures forall i :: 0 <= i < |s| ==> r[i] == lower(s[i])
  {
    if s == "" then "" else [lower(s[0])] + Lowered(s[1..], lower)
  }

  /** The name stands at the position, letter case aside. */
  predicate NameAt(text: string, at: nat, name: string, lower: char -> char) {
    at + |name| <= |text| && Lowered(text[at..at + |name|], lower) == Lowered(name, lower)
  }

  /** The longest of the names that stand at the position, the first of them if there are several. */
  function FindName(names: seq<string>, text: string, at: nat, lower: char -> char): (r: Option<nat>)
    ensures r.Some? ==> r.value < |names| && NameAt(text, at, names[r.value], lower)
    ensures r.None? ==> forall k :: 0 <= k < |names| ==> !NameAt(text, at, names[k], lower)
    ensures r.Some? ==> forall k :: 0 <= k < |names| && NameAt(text, at, names[k], lower) ==>
      |names[k]| < |names[r.value]| || (|names[k]| == |names[r.value]| && r.value <= k)
  {
    if names == [] then None
    else
      var n := |names| - 1;
      var before := FindName(names[..n], text, at, lower);
      if NameAt(text, at, names[n], lower) && (before.None? || |names[before.value]| < |names[n]|) then Some(n)
      else before
  }

  predicate PrefixAnyCase(s: string, t: string, lower: char -> char) {
    |s| <= |t| && Lowered(t[..|s|], lower) == Lowered(s, lower)
  }

  /** No name of the table begins, letter case aside, with another one. */
  ghost predicate PrefixFree(names: seq<string>, lower: char -> char) {
    forall i, j :: 0 <= i < |names| && 0 <= j < |names| && i != j ==> !PrefixAnyCase(names[i], names[j], lower)
  }

  lemma BothStand(text: string, at: nat, name: string, other: string, lower: char -> char)
    requires at + |name| <= |text| && text[at..at + |name|] == name
    requires NameAt(text, at, other, lower) && |name| <= |other|
    ensures PrefixAnyCase(name, other, lower)
  {
    var here := text[at..at + |other|];
    assert here[..|name|] == name;
    assert forall i :: 0 <= i < |name| ==> Lowered(here, lower)[i] == Lowered(other, lower)[i];
  }

  /** In such a table a printed name is found again, whatever follows it. */
  lemma NameIsFound(names: seq<string>, k: nat, text: string, at: nat, rest: string, lower: char -> char)
    requires k < |names| && PrefixFree(names, lower)
    requires at <= |text| && text[at..] == names[k] + rest
    ensures FindName(names, text, at, lower) == Some(k)
  {
    assert text[at..at + |names[k]|] == text[at..][..|names[k]|] == names[k];
    assert NameAt(text, at, names[k], lower);
    forall j | 0 <= j < |names| && NameAt(text, at, names[j], lower) && |names[k]| <= |names[j]|
      ensures PrefixAnyCase(names[k], names[j], lower)
    {
      BothStand(text, at, names[k], names[j], lower);
    }
  }
}
