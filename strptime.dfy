/**
  The part of `datetime.strptime` the service relies on: the six accepted
  purchase-date formats, the `%H:%M` time format, and the calendar check that
  `datetime` applies to the parsed fields.

  A format is a sequence of directives. A numeric directive consumes the
  maximal run of ASCII digits at the current position and accepts it when the
  run has an allowed width and its value is in the directive's range; a
  literal consumes exactly one equal character; `%B` consumes an English month
  name in any letter case. Every numeric directive of these formats is
  followed by a non-digit literal or by the end of the format, so taking the
  maximal run accepts exactly what the directive regexes accept with
  backtracking. The whole input must be consumed.
*/
module StrPTime {
  import opened Wrappers
  import opened Chars
  import opened Numerals

  datatype Directive =
    | Lit(c: char)   // a literal character of the format
    | DayOfMonth     // %d: 1 or 2 digits, 1-31
    | MonthNumber    // %m: 1 or 2 digits, 1-12
    | MonthName      // %B: full month name, case-insensitive
    | Year4          // %Y: exactly 4 digits
    | Year2          // %y: exactly 2 digits, 00-68 -> 20xx, 69-99 -> 19xx
    | Hour24         // %H: 1 or 2 digits, 0-23
    | Minute         // %M: 1 or 2 digits, 0-59

  /** The fields of a parsed timestamp (seconds are never parsed here). */
  datatype Stamp = Stamp(year: int, month: int, day: int, hour: int, minute: int)

  /** What `strptime` assumes for fields the format does not mention. */
  const Unset := Stamp(1900, 1, 1, 0, 0)

  const MonthNames: seq<string> := [
    "january", "february", "march", "april", "may", "june",
    "july", "august", "september", "october", "november", "december"]

  const MonthNameDayYear: seq<Directive> := [MonthName, Lit(' '), DayOfMonth, Lit(','), Lit(' '), Year4]  // %B %d, %Y
  const DayMonthNameYear: seq<Directive> := [DayOfMonth, Lit(' '), MonthName, Lit(' '), Year4]           // %d %B %Y
  const MonthDayYearSlashed: seq<Directive> := [MonthNumber, Lit('/'), DayOfMonth, Lit('/'), Year4]      // %m/%d/%Y
  const IsoDate: seq<Directive> := [Year4, Lit('-'), MonthNumber, Lit('-'), DayOfMonth]                  // %Y-%m-%d
  const DayMonthShortYear: seq<Directive> := [DayOfMonth, Lit(' '), MonthNumber, Lit(' '), Year2]        // %d %m %y
  const DayMonthYear: seq<Directive> := [DayOfMonth, Lit(' '), MonthNumber, Lit(' '), Year4]             // %d %m %Y

  /** The accepted purchase-date formats, in the order they are tried. */
  const DateFormats: seq<seq<Directive>> := [
    MonthNameDayYear, DayMonthNameYear, MonthDayYearSlashed, IsoDate, DayMonthShortYear, DayMonthYear]

  /** The purchase-time format %H:%M. */
  const TimeFormat: seq<Directive> := [Hour24, Lit(':'), Minute]

  predicate IsNumeric(d: Directive) { !d.Lit? && !d.MonthName? }

  /** Allowed digit-run widths and value range of a numeric directive. */
  function MinWidth(d: Directive): nat requires IsNumeric(d)
  {
    match d
    case Year4 => 4
    case Year2 => 2
    case DayOfMonth => 1
    case MonthNumber => 1
    case Hour24 => 1
    case Minute => 1
  }

  function MaxWidth(d: Directive): nat requires IsNumeric(d)
  {
    match d
    case Year4 => 4
    case Year2 => 2
    case DayOfMonth => 2
    case MonthNumber => 2
    case Hour24 => 2
    case Minute => 2
  }

  function Low(d: Directive): nat requires IsNumeric(d)
  {
    match d
    case DayOfMonth => 1
    case MonthNumber => 1
    case Year4 => 0
    case Year2 => 0
    case Hour24 => 0
    case Minute => 0
  }

  function High(d: Directive): nat requires IsNumeric(d)
  {
    match d
    case Year4 => 9999
    case Year2 => 99
    case DayOfMonth => 31
    case MonthNumber => 12
    case Hour24 => 23
    case Minute => 59
  }

  /** Records the value read for a numeric directive. */
  function Set(t: Stamp, d: Directive, v: nat): Stamp requires IsNumeric(d)
  {
    match d
    case Year4 => t.(year := v)
    case Year2 => t.(year := ShortYear(v))
    case DayOfMonth => t.(day := v)
    case MonthNumber => t.(month := v)
    case Hour24 => t.(hour := v)
    case Minute => t.(minute := v)
  }

  /** The year a two-digit %y value stands for: 00-68 are 2000-2068, 69-99 are 1969-1999. */
  function ShortYear(v: nat): nat
  {
    if v <= 68 then 2000 + v else 1900 + v
  }

  /** Whether the month name `MonthNames[k]` stands, in any letter case, at position `i` of `s`. */
  predicate NameAt(s: string, i: nat, k: nat)
    requires i <= |s| && k < |MonthNames|
  {
    i + |MonthNames[k]| <= |s| && LowerAll(s[i..i + |MonthNames[k]|]) == MonthNames[k]
  }

  /** The first month name, from the `k`-th on, that stands at position `i`, as its index. */
  function MonthNameFrom(s: string, i: nat, k: nat): (r: Option<nat>)
    requires i <= |s| && k <= |MonthNames|
    ensures r.Some? ==> k <= r.value < |MonthNames| && i + |MonthNames[r.value]| <= |s|
    decreases |MonthNames| - k
  {
    if k == |MonthNames| then None
    else if NameAt(s, i, k) then Some(k)
    else MonthNameFrom(s, i, k + 1)
  }

  /**
    What %B finds at position `i`: a name found stands there and no other
    does; when none is found, none of the names searched stands there.
  */
  lemma {:induction false} MonthNameFound(s: string, i: nat, k: nat)
    requires i <= |s| && k <= |MonthNames|
    ensures var r := MonthNameFrom(s, i, k);
      && (r.Some? ==> NameAt(s, i, r.value))
      && (r.Some? ==> forall j :: 0 <= j < |MonthNames| && j != r.value ==> !NameAt(s, i, j))
      && (r.None? ==> forall j :: k <= j < |MonthNames| ==> !NameAt(s, i, j))
    decreases |MonthNames| - k
  {
    OneNameAt(s, i);
    if k < |MonthNames| && !NameAt(s, i, k) {
      MonthNameFound(s, i, k + 1);
    }
  }

  /**
    At most one month name stands at any position: the names differ within
    their first three letters, so the order in which the matcher tries them
    does not matter.
  */
  lemma OneNameAt(s: string, i: nat)
    requires i <= |s|
    ensures forall j, k :: 0 <= j < k < |MonthNames| && NameAt(s, i, j) ==> !NameAt(s, i, k)
  {
    forall j, k | 0 <= j < k < |MonthNames| && NameAt(s, i, j)
      ensures !NameAt(s, i, k)
    {
      NameStart(s, i, j);
      if NameAt(s, i, k) {
        NameStart(s, i, k);
        AbbreviationsDiffer(j, k);
      }
    }
  }

  /** A month name standing at `i` spells its first three letters there, in any case. */
  lemma NameStart(s: string, i: nat, k: nat)
    requires i <= |s| && k < |MonthNames| && NameAt(s, i, k)
    ensures i + 3 <= |s|
    ensures Lower(s[i]) == MonthNames[k][0] && Lower(s[i + 1]) == MonthNames[k][1] && Lower(s[i + 2]) == MonthNames[k][2]
  {
    MonthNamesLong();
    var n := LowerAll(s[i..i + |MonthNames[k]|]);
    assert n[0] == Lower(s[i]) && n[1] == Lower(s[i + 1]) && n[2] == Lower(s[i + 2]);
  }

  /** No two month names share their first three letters. */
  lemma AbbreviationsDiffer(j: nat, k: nat)
    requires j < k < |MonthNames|
    ensures MonthNames[j][0] != MonthNames[k][0] || MonthNames[j][1] != MonthNames[k][1] || MonthNames[j][2] != MonthNames[k][2]
  {
  }

  /** Matches the directives `fmt` against `s` from position `i`, filling in `t`. */
  function Match(s: string, i: nat, fmt: seq<Directive>, t: Stamp): Option<Stamp>
    requires i <= |s|
    decreases |fmt|
  {
    if fmt == [] then
      if i == |s| then Some(t) else None
    else match fmt[0]
      case Lit(c) =>
        if i < |s| && s[i] == c then Match(s, i + 1, fmt[1..], t) else None
      case MonthName =>
        (match MonthNameFrom(s, i, 0)
         case None => None
         case Some(k) => Match(s, i + |MonthNames[k]|, fmt[1..], t.(month := k + 1)))
      case _ =>
        var n := DigitRun(s, i);
        if MinWidth(fmt[0]) <= n <= MaxWidth(fmt[0]) && Low(fmt[0]) <= Value(s[i..i + n]) <= High(fmt[0])
        then Match(s, i + n, fmt[1..], Set(t, fmt[0], Value(s[i..i + n])))
        else None
  }

  predicate IsLeapYear(y: int) { y % 4 == 0 && (y % 100 != 0 || y % 400 == 0) }

  function DaysInMonth(y: int, m: int): (n: nat)
    requires 1 <= m <= 12
    ensures 28 <= n <= 31
  {
    if m == 2 then (if IsLeapYear(y) then 29 else 28)
    else if m == 4 || m == 6 || m == 9 || m == 11 then 30
    else 31
  }

  /** The range checks `datetime` applies to the parsed fields. */
  predicate IsCalendarStamp(t: Stamp)
  {
    && 1 <= t.year <= 9999
    && 1 <= t.month <= 12
    && 1 <= t.day <= DaysInMonth(t.year, t.month)
    && 0 <= t.hour <= 23
    && 0 <= t.minute <= 59
  }

  /** `datetime.strptime(s, fmt)`: the parsed fields, or None where it raises ValueError. */
  function Parse(s: string, fmt: seq<Directive>): (r: Option<Stamp>)
    ensures r.Some? ==> IsCalendarStamp(r.value)
  {
    match Match(s, 0, fmt, Unset)
    case Some(t) => if IsCalendarStamp(t) then Some(t) else None
    case None => None
  }

  // One step of the matcher, for each kind of directive.

  lemma MatchLitStep(s: string, i: nat, c: char, rest: seq<Directive>, t: Stamp)
    requires i < |s| && s[i] == c
    ensures Match(s, i, [Lit(c)] + rest, t) == Match(s, i + 1, rest, t)
  {
    assert ([Lit(c)] + rest)[1..] == rest;
  }

  lemma MatchNumberStep(s: string, i: nat, d: Directive, n: nat, rest: seq<Directive>, t: Stamp)
    requires IsNumeric(d) && i + n <= |s|
    requires i + n == |s| || !IsDigit(s[i + n])
    requires MinWidth(d) <= n <= MaxWidth(d)
    requires AllDigits(s[i..i + n]) && Low(d) <= Value(s[i..i + n]) <= High(d)
    ensures Match(s, i, [d] + rest, t) == Match(s, i + n, rest, Set(t, d, Value(s[i..i + n])))
  {
    RunOfDigits(s, i, n);
    assert ([d] + rest)[1..] == rest;
  }

  /** A run of `n` digits followed by a non-digit or the end is the maximal run there. */
  lemma RunOfDigits(s: string, i: nat, n: nat)
    requires i + n <= |s| && AllDigits(s[i..i + n])
    requires i + n == |s| || !IsDigit(s[i + n])
    ensures DigitRun(s, i) == n
  {
    forall j | i <= j < i + n ensures IsDigit(s[j]) {
      assert s[j] == s[i..i + n][j - i];
    }
  }

  /** Rendering an hour and a minute as `HH:MM` and parsing it with %H:%M gives them back. */
  lemma TimeRoundTrip(h: nat, m: nat)
    requires h <= 23 && m <= 59
    ensures Parse(Digits(h, 2) + ":" + Digits(m, 2), TimeFormat) == Some(Stamp(1900, 1, 1, h, m))
  {
    var s := Digits(h, 2) + ":" + Digits(m, 2);
    ClockOfDigits(h, m);
    ClockMatches(s, 2);
  }

  /** `HH:MM` written with two digits each is clock-shaped, and reads back the hour and minute. */
  lemma ClockOfDigits(h: nat, m: nat)
    requires h <= 23 && m <= 59
    ensures var s := Digits(h, 2) + ":" + Digits(m, 2);
      ClockShape(s, 2) && Value(s[..2]) == h && Value(s[3..]) == m
  {
    var hh, mm := Digits(h, 2), Digits(m, 2);
    var s := hh + ":" + mm;
    DigitsWidth(h, 2);
    DigitsWidth(m, 2);
    ValueOfDigits(h, 2);
    ValueOfDigits(m, 2);
    assert s[..2] == hh && s[3..] == mm;
  }

  /** Rendering a calendar date as `YYYY-MM-DD` and parsing it with %Y-%m-%d gives it back. */
  lemma IsoDateRoundTrip(y: nat, m: nat, d: nat)
    requires IsCalendarStamp(Stamp(y, m, d, 0, 0))
    ensures Parse(Digits(y, 4) + "-" + Digits(m, 2) + "-" + Digits(d, 2), IsoDate) == Some(Stamp(y, m, d, 0, 0))
  {
    var yy, mm, dd := Digits(y, 4), Digits(m, 2), Digits(d, 2);
    DigitsWidth(y, 4);
    DigitsWidth(m, 2);
    DigitsWidth(d, 2);
    ValueOfDigits(y, 4);
    ValueOfDigits(m, 2);
    ValueOfDigits(d, 2);
    IsoShape(yy, mm, dd);
    IsoDateMatches(yy + "-" + mm + "-" + dd);
  }

  /** `s` is shaped `dddd-dd-dd`. */
  predicate IsoShaped(s: string)
  {
    && |s| == 10 && s[4] == '-' && s[7] == '-'
    && (forall j :: 0 <= j < 10 && j != 4 && j != 7 ==> IsDigit(s[j]))
  }

  lemma IsoShape(yy: string, mm: string, dd: string)
    requires |yy| == 4 && |mm| == 2 && |dd| == 2
    requires AllDigits(yy) && AllDigits(mm) && AllDigits(dd)
    ensures var s := yy + "-" + mm + "-" + dd;
      && IsoShaped(s)
      && s[0..4] == yy && s[5..7] == mm && s[8..10] == dd
  {
    var s := yy + "-" + mm + "-" + dd;
    assert s[0..4] == yy;
    assert s[5..7] == mm;
    assert s[8..10] == dd;
  }

  /** A string shaped `dddd-dd-dd` with month and day in range matches %Y-%m-%d field by field. */
  lemma IsoDateMatches(s: string)
    requires IsoShaped(s)
    requires 1 <= Value(s[5..7]) <= 12 && 1 <= Value(s[8..10]) <= 31
    ensures Match(s, 0, IsoDate, Unset) == Some(Stamp(Value(s[0..4]), Value(s[5..7]), Value(s[8..10]), 0, 0))
  {
    var tail := [Lit('-'), DayOfMonth];
    var t1 := Unset.(year := Value(s[0..4]));
    var t2 := t1.(month := Value(s[5..7]));
    assert IsoDate == [Year4] + ([Lit('-')] + ([MonthNumber] + tail));
    assert tail == [Lit('-')] + ([DayOfMonth] + []);
    calc {
      Match(s, 0, IsoDate, Unset);
      { MatchNumberStep(s, 0, Year4, 4, [Lit('-')] + ([MonthNumber] + tail), Unset); }
      Match(s, 4, [Lit('-')] + ([MonthNumber] + tail), t1);
      { MatchLitStep(s, 4, '-', [MonthNumber] + tail, t1); }
      Match(s, 5, [MonthNumber] + tail, t1);
      { MatchNumberStep(s, 5, MonthNumber, 2, tail, t1); }
      Match(s, 7, [Lit('-')] + ([DayOfMonth] + []), t2);
      { MatchLitStep(s, 7, '-', [DayOfMonth] + [], t2); }
      Match(s, 8, [DayOfMonth] + [], t2);
      { MatchNumberStep(s, 8, DayOfMonth, 2, [], t2); }
      Match(s, 10, [], t2.(day := Value(s[8..10])));
    }
  }

  /** A numeric directive fails on a run of digits longer than it accepts. */
  lemma NumberTooWide(s: string, i: nat, d: Directive, rest: seq<Directive>, t: Stamp)
    requires IsNumeric(d) && i <= |s| && DigitRun(s, i) > MaxWidth(d)
    ensures Match(s, i, [d] + rest, t) == None
  {
    assert ([d] + rest)[0] == d;
  }

  /** Every month name starts with a letter, so %B fails on a digit. */
  lemma NoMonthNameAtDigit(s: string, i: nat, rest: seq<Directive>, t: Stamp)
    requires i < |s| && IsDigit(s[i])
    ensures Match(s, i, [MonthName] + rest, t) == None
  {
    forall k | 0 <= k < |MonthNames| ensures !NameAt(s, i, k) {
      assert 'a' <= MonthNames[k][0] <= 'z';
      assert i + |MonthNames[k]| <= |s| ==> LowerAll(s[i..i + |MonthNames[k]|])[0] == s[i];
    }
    MonthNameFound(s, i, 0);
    assert MonthNameFrom(s, i, 0) == None;
    assert ([MonthName] + rest)[0] == MonthName;
  }

  /**
    A `dddd-dd-dd` string is parsed by %Y-%m-%d alone: the other date formats
    start with a month name, which needs a letter, or with a day or month
    number, which takes at most two digits.
  */
  lemma IsoShapedOnlyIsoDate(s: string)
    requires IsoShaped(s)
    ensures forall k :: 0 <= k < |DateFormats| && k != 3 ==> Parse(s, DateFormats[k]) == None
  {
    assert IsDigit(s[0]) && IsDigit(s[1]) && IsDigit(s[2]);
    assert DigitRun(s, 0) > 2;
    LeadingMonthNameFails(s, MonthNameDayYear);
    LeadingNumberTooWide(s, DayMonthNameYear);
    LeadingNumberTooWide(s, MonthDayYearSlashed);
    LeadingNumberTooWide(s, DayMonthShortYear);
    LeadingNumberTooWide(s, DayMonthYear);
  }

  lemma LeadingNumberTooWide(s: string, fmt: seq<Directive>)
    requires fmt != [] && IsNumeric(fmt[0]) && DigitRun(s, 0) > MaxWidth(fmt[0])
    ensures Parse(s, fmt) == None
  {
    NumberTooWide(s, 0, fmt[0], fmt[1..], Unset);
    assert fmt == [fmt[0]] + fmt[1..];
  }

  lemma LeadingMonthNameFails(s: string, fmt: seq<Directive>)
    requires fmt != [] && fmt[0] == MonthName && |s| > 0 && IsDigit(s[0])
    ensures Parse(s, fmt) == None
  {
    NoMonthNameAtDigit(s, 0, fmt[1..], Unset);
    assert fmt == [MonthName] + fmt[1..];
  }

  /**
    `s` is one or two digits, a colon at position `p`, then one or two digits,
    the first number at most 23 and the second at most 59.
  */
  predicate ClockShape(s: string, p: nat)
  {
    && 1 <= p <= 2 && p + 2 <= |s| <= p + 3 && s[p] == ':'
    && AllDigits(s[..p]) && AllDigits(s[p + 1..])
    && Value(s[..p]) <= 23 && Value(s[p + 1..]) <= 59
  }

  /** %H:%M accepts exactly the clock-shaped strings, and reads the hour and minute off them. */
  lemma TimeParseIff(s: string)
    ensures Parse(s, TimeFormat).Some? <==> exists p: nat :: ClockShape(s, p)
    ensures forall p: nat :: ClockShape(s, p) ==>
      Parse(s, TimeFormat) == Some(Unset.(hour := Value(s[..p]), minute := Value(s[p + 1..])))
  {
    forall p: nat | ClockShape(s, p)
      ensures Parse(s, TimeFormat) == Some(Unset.(hour := Value(s[..p]), minute := Value(s[p + 1..])))
    {
      ClockMatches(s, p);
    }
    if Parse(s, TimeFormat).Some? {
      ClockShapeOfMatch(s);
    }
  }

  lemma ClockMatches(s: string, p: nat)
    requires ClockShape(s, p)
    ensures Match(s, 0, TimeFormat, Unset) == Some(Unset.(hour := Value(s[..p]), minute := Value(s[p + 1..])))
  {
    var t1 := Unset.(hour := Value(s[..p]));
    assert s[0..p] == s[..p];
    assert s[p + 1..p + 1 + (|s| - p - 1)] == s[p + 1..];
    assert TimeFormat == [Hour24] + ([Lit(':')] + ([Minute] + []));
    MatchNumberStep(s, 0, Hour24, p, [Lit(':')] + ([Minute] + []), Unset);
    MatchLitStep(s, p, ':', [Minute] + [], t1);
    MatchNumberStep(s, p + 1, Minute, |s| - p - 1, [], t1);
  }

  lemma ClockShapeOfMatch(s: string)
    requires Match(s, 0, TimeFormat, Unset).Some?
    ensures ClockShape(s, DigitRun(s, 0))
  {
    var n := DigitRun(s, 0);
    assert TimeFormat == [Hour24] + ([Lit(':')] + ([Minute] + []));
    MatchNumberInverse(s, 0, Hour24, [Lit(':')] + ([Minute] + []), Unset);
    var t1 := Set(Unset, Hour24, Value(s[0..n]));
    MatchLitInverse(s, n, ':', [Minute] + [], t1);
    MatchNumberInverse(s, n + 1, Minute, [], t1);
    var m := DigitRun(s, n + 1);
    assert n + 1 + m == |s|;
    assert s[..n] == s[0..n];
    assert s[n + 1..] == s[n + 1..n + 1 + m];
  }

  /** What a successful match of a leading numeric directive says about the digits it read. */
  lemma MatchNumberInverse(s: string, i: nat, d: Directive, rest: seq<Directive>, t: Stamp)
    requires IsNumeric(d) && i <= |s| && Match(s, i, [d] + rest, t).Some?
    ensures var n := DigitRun(s, i);
      && MinWidth(d) <= n <= MaxWidth(d)
      && AllDigits(s[i..i + n]) && Low(d) <= Value(s[i..i + n]) <= High(d)
      && Match(s, i + n, rest, Set(t, d, Value(s[i..i + n]))).Some?
  {
    assert ([d] + rest)[0] == d && ([d] + rest)[1..] == rest;
  }

  /** What a successful match of a leading literal says about the character it read. */
  lemma MatchLitInverse(s: string, i: nat, c: char, rest: seq<Directive>, t: Stamp)
    requires i <= |s| && Match(s, i, [Lit(c)] + rest, t).Some?
    ensures i < |s| && s[i] == c && Match(s, i + 1, rest, t).Some?
  {
    assert ([Lit(c)] + rest)[0] == Lit(c) && ([Lit(c)] + rest)[1..] == rest;
  }

  /** Every directive consumes at least one character, so a match needs as many characters as directives. */
  lemma {:induction false} MatchConsumes(s: string, i: nat, fmt: seq<Directive>, t: Stamp)
    requires i <= |s|
    ensures Match(s, i, fmt, t).Some? ==> i + |fmt| <= |s|
    decreases |fmt|
  {
    if fmt != [] && Match(s, i, fmt, t).Some? {
      var j, u := MatchStep(s, i, fmt, t);
      MatchConsumes(s, j, fmt[1..], u);
    }
  }

  /** A successful match consumes at least one character for its first directive. */
  lemma MatchStep(s: string, i: nat, fmt: seq<Directive>, t: Stamp) returns (j: nat, u: Stamp)
    requires i <= |s| && fmt != [] && Match(s, i, fmt, t).Some?
    ensures i < j <= |s| && Match(s, j, fmt[1..], u).Some?
  {
    if fmt[0].Lit? {
      j, u := MatchStepLit(s, i, fmt, t);
    } else if fmt[0].MonthName? {
      j, u := MatchStepName(s, i, fmt, t);
    } else {
      j, u := MatchStepNumber(s, i, fmt, t);
    }
  }

  lemma MatchStepLit(s: string, i: nat, fmt: seq<Directive>, t: Stamp) returns (j: nat, u: Stamp)
    requires i <= |s| && fmt != [] && fmt[0].Lit? && Match(s, i, fmt, t).Some?
    ensures i < j <= |s| && Match(s, j, fmt[1..], u).Some?
  {
    j, u := i + 1, t;
  }

  lemma MatchStepName(s: string, i: nat, fmt: seq<Directive>, t: Stamp) returns (j: nat, u: Stamp)
    requires i <= |s| && fmt != [] && fmt[0].MonthName? && Match(s, i, fmt, t).Some?
    ensures i < j <= |s| && Match(s, j, fmt[1..], u).Some?
  {
    MonthNamesLong();
    var k := MonthNameFrom(s, i, 0).value;
    j, u := i + |MonthNames[k]|, t.(month := k + 1);
    assert fmt == [MonthName] + fmt[1..];
    MatchFoundName(s, i, k, j, fmt[1..], t, u);
  }

  /** Every month name is at least three letters long. */
  lemma MonthNamesLong()
    ensures forall k :: 0 <= k < |MonthNames| ==> |MonthNames[k]| >= 3
  {
  }

  lemma MatchStepNumber(s: string, i: nat, fmt: seq<Directive>, t: Stamp) returns (j: nat, u: Stamp)
    requires i <= |s| && fmt != [] && IsNumeric(fmt[0]) && Match(s, i, fmt, t).Some?
    ensures i < j <= |s| && Match(s, j, fmt[1..], u).Some?
  {
    var n := DigitRun(s, i);
    assert MinWidth(fmt[0]) >= 1 && MinWidth(fmt[0]) <= n;
    j, u := i + n, Set(t, fmt[0], Value(s[i..i + n]));
  }

  /** No accepted date format parses a string of fewer than five characters. */
  lemma ShortDateRejected(s: string)
    requires |s| < 5
    ensures forall k :: 0 <= k < |DateFormats| ==> Parse(s, DateFormats[k]) == None
  {
    forall k | 0 <= k < |DateFormats|
      ensures Parse(s, DateFormats[k]) == None
    {
      assert |DateFormats[k]| >= 5;
      MatchConsumes(s, 0, DateFormats[k], Unset);
    }
  }

  // The other date formats, field by field.

  /** %B reads the month name `MonthNames[k]` standing at position `i`, and goes on at `j` with the month set. */
  lemma MatchNameStep(s: string, i: nat, k: nat, j: nat, rest: seq<Directive>, t: Stamp, u: Stamp)
    requires i <= |s| && k < |MonthNames| && NameAt(s, i, k)
    requires j == i + |MonthNames[k]| && u == t.(month := k + 1)
    ensures j <= |s|
    ensures Match(s, i, [MonthName] + rest, t) == Match(s, j, rest, u)
  {
    NameFound(s, i, k);
    MatchFoundName(s, i, k, j, rest, t, u);
  }

  lemma MatchFoundName(s: string, i: nat, k: nat, j: nat, rest: seq<Directive>, t: Stamp, u: Stamp)
    requires i <= |s| && k < |MonthNames| && MonthNameFrom(s, i, 0) == Some(k)
    requires j == i + |MonthNames[k]| && u == t.(month := k + 1)
    ensures j <= |s|
    ensures Match(s, i, [MonthName] + rest, t) == Match(s, j, rest, u)
  {
    assert ([MonthName] + rest)[1..] == rest;
  }

  /** %B reads the one month name that stands at position `i`. */
  lemma NameFound(s: string, i: nat, k: nat)
    requires i <= |s| && k < |MonthNames| && NameAt(s, i, k)
    ensures MonthNameFrom(s, i, 0) == Some(k)
  {
    MonthNameFound(s, i, 0);
  }

  /** A number below 100 written with two digits. */
  lemma TwoDigitField(n: nat)
    requires n < 100
    ensures |Digits(n, 2)| == 2 && Value(Digits(n, 2)) == n
  {
    DigitsWidth(n, 2);
    ValueOfDigits(n, 2);
  }

  /** The widths and values of a date's fields written with 4, 2 and 2 digits. */
  lemma RenderedFields(y: nat, m: nat, d: nat)
    requires IsCalendarStamp(Stamp(y, m, d, 0, 0))
    ensures |Digits(y, 4)| == 4 && |Digits(m, 2)| == 2 && |Digits(d, 2)| == 2
    ensures Value(Digits(y, 4)) == y && Value(Digits(m, 2)) == m && Value(Digits(d, 2)) == d
  {
    DigitsWidth(y, 4);
    DigitsWidth(m, 2);
    DigitsWidth(d, 2);
    ValueOfDigits(y, 4);
    ValueOfDigits(m, 2);
    ValueOfDigits(d, 2);
  }

  /** `s` is shaped `dd?dd?` and then `w` digits, where `?` is the non-digit `sep`. */
  predicate PairsShaped(s: string, sep: char, w: nat)
  {
    && |s| == 6 + w && !IsDigit(sep) && s[2] == sep && s[5] == sep
    && (forall j :: 0 <= j < |s| && j != 2 && j != 5 ==> IsDigit(s[j]))
  }

  lemma PairsShape(aa: string, sep: char, bb: string, cc: string)
    requires |aa| == 2 && |bb| == 2 && !IsDigit(sep)
    requires AllDigits(aa) && AllDigits(bb) && AllDigits(cc)
    ensures var s := aa + [sep] + bb + [sep] + cc;
      && PairsShaped(s, sep, |cc|)
      && s[0..2] == aa && s[3..5] == bb && s[6..6 + |cc|] == cc
  {
    var s := aa + [sep] + bb + [sep] + cc;
    assert s[0..2] == aa;
    assert s[3..5] == bb;
    assert s[6..6 + |cc|] == cc;
  }

  /** A string shaped `dd/dd/dddd` with month and day in range matches %m/%d/%Y field by field. */
  lemma SlashedDateMatches(s: string)
    requires PairsShaped(s, '/', 4)
    requires 1 <= Value(s[0..2]) <= 12 && 1 <= Value(s[3..5]) <= 31
    ensures Match(s, 0, MonthDayYearSlashed, Unset) == Some(Stamp(Value(s[6..10]), Value(s[0..2]), Value(s[3..5]), 0, 0))
  {
    var tail := [Lit('/'), Year4];
    var t1 := Unset.(month := Value(s[0..2]));
    var t2 := t1.(day := Value(s[3..5]));
    assert MonthDayYearSlashed == [MonthNumber] + ([Lit('/')] + ([DayOfMonth] + tail));
    assert tail == [Lit('/')] + ([Year4] + []);
    calc {
      Match(s, 0, MonthDayYearSlashed, Unset);
      { MatchNumberStep(s, 0, MonthNumber, 2, [Lit('/')] + ([DayOfMonth] + tail), Unset); }
      Match(s, 2, [Lit('/')] + ([DayOfMonth] + tail), t1);
      { MatchLitStep(s, 2, '/', [DayOfMonth] + tail, t1); }
      Match(s, 3, [DayOfMonth] + tail, t1);
      { MatchNumberStep(s, 3, DayOfMonth, 2, tail, t1); }
      Match(s, 5, [Lit('/')] + ([Year4] + []), t2);
      { MatchLitStep(s, 5, '/', [Year4] + [], t2); }
      Match(s, 6, [Year4] + [], t2);
      { MatchNumberStep(s, 6, Year4, 4, [], t2); }
      Match(s, 10, [], t2.(year := Value(s[6..10])));
    }
  }

  /** A string shaped `dd dd dddd` with day and month in range matches %d %m %Y field by field. */
  lemma DayMonthYearMatches(s: string)
    requires PairsShaped(s, ' ', 4)
    requires 1 <= Value(s[0..2]) <= 31 && 1 <= Value(s[3..5]) <= 12
    ensures Match(s, 0, DayMonthYear, Unset) == Some(Stamp(Value(s[6..10]), Value(s[3..5]), Value(s[0..2]), 0, 0))
  {
    var tail := [Lit(' '), Year4];
    var t1 := Unset.(day := Value(s[0..2]));
    var t2 := t1.(month := Value(s[3..5]));
    assert DayMonthYear == [DayOfMonth] + ([Lit(' ')] + ([MonthNumber] + tail));
    assert tail == [Lit(' ')] + ([Year4] + []);
    calc {
      Match(s, 0, DayMonthYear, Unset);
      { MatchNumberStep(s, 0, DayOfMonth, 2, [Lit(' ')] + ([MonthNumber] + tail), Unset); }
      Match(s, 2, [Lit(' ')] + ([MonthNumber] + tail), t1);
      { MatchLitStep(s, 2, ' ', [MonthNumber] + tail, t1); }
      Match(s, 3, [MonthNumber] + tail, t1);
      { MatchNumberStep(s, 3, MonthNumber, 2, tail, t1); }
      Match(s, 5, [Lit(' ')] + ([Year4] + []), t2);
      { MatchLitStep(s, 5, ' ', [Year4] + [], t2); }
      Match(s, 6, [Year4] + [], t2);
      { MatchNumberStep(s, 6, Year4, 4, [], t2); }
      Match(s, 10, [], t2.(year := Value(s[6..10])));
    }
  }

  /**
    A string shaped `dd dd dd` with day and month in range matches %d %m %y
    field by field; the two-digit year `v` stands for 20v up to 68 and for 19v from 69.
  */
  lemma DayMonthShortYearMatches(s: string)
    requires PairsShaped(s, ' ', 2)
    requires 1 <= Value(s[0..2]) <= 31 && 1 <= Value(s[3..5]) <= 12
    ensures Match(s, 0, DayMonthShortYear, Unset) == Some(Stamp(ShortYear(Value(s[6..8])), Value(s[3..5]), Value(s[0..2]), 0, 0))
  {
    var tail := [Lit(' '), Year2];
    var t1 := Unset.(day := Value(s[0..2]));
    var t2 := t1.(month := Value(s[3..5]));
    assert Pow10(2) == 100;
    assert DayMonthShortYear == [DayOfMonth] + ([Lit(' ')] + ([MonthNumber] + tail));
    assert tail == [Lit(' ')] + ([Year2] + []);
    calc {
      Match(s, 0, DayMonthShortYear, Unset);
      { MatchNumberStep(s, 0, DayOfMonth, 2, [Lit(' ')] + ([MonthNumber] + tail), Unset); }
      Match(s, 2, [Lit(' ')] + ([MonthNumber] + tail), t1);
      { MatchLitStep(s, 2, ' ', [MonthNumber] + tail, t1); }
      Match(s, 3, [MonthNumber] + tail, t1);
      { MatchNumberStep(s, 3, MonthNumber, 2, tail, t1); }
      Match(s, 5, [Lit(' ')] + ([Year2] + []), t2);
      { MatchLitStep(s, 5, ' ', [Year2] + [], t2); }
      Match(s, 6, [Year2] + [], t2);
      { MatchNumberStep(s, 6, Year2, 2, [], t2); }
      Match(s, 8, [], Set(t2, Year2, Value(s[6..8])));
      Some(t2.(year := ShortYear(Value(s[6..8]))));
    }
  }

  /** Rendering a calendar date as `MM/DD/YYYY` and parsing it with %m/%d/%Y gives it back. */
  lemma SlashedDateRoundTrip(y: nat, m: nat, d: nat)
    requires IsCalendarStamp(Stamp(y, m, d, 0, 0))
    ensures Parse(Digits(m, 2) + "/" + Digits(d, 2) + "/" + Digits(y, 4), MonthDayYearSlashed) == Some(Stamp(y, m, d, 0, 0))
  {
    RenderedFields(y, m, d);
    PairsShape(Digits(m, 2), '/', Digits(d, 2), Digits(y, 4));
    SlashedDateMatches(Digits(m, 2) + "/" + Digits(d, 2) + "/" + Digits(y, 4));
  }

  /** Rendering a calendar date as `DD MM YYYY` and parsing it with %d %m %Y gives it back. */
  lemma DayMonthYearRoundTrip(y: nat, m: nat, d: nat)
    requires IsCalendarStamp(Stamp(y, m, d, 0, 0))
    ensures Parse(Digits(d, 2) + " " + Digits(m, 2) + " " + Digits(y, 4), DayMonthYear) == Some(Stamp(y, m, d, 0, 0))
  {
    RenderedFields(y, m, d);
    PairsShape(Digits(d, 2), ' ', Digits(m, 2), Digits(y, 4));
    DayMonthYearMatches(Digits(d, 2) + " " + Digits(m, 2) + " " + Digits(y, 4));
  }

  /**
    Rendering a calendar date from 1969 through 2068 as `DD MM YY` and parsing
    it with %d %m %y gives it back: that century window is what %y reads.
  */
  lemma DayMonthShortYearRoundTrip(y: nat, m: nat, d: nat)
    requires IsCalendarStamp(Stamp(y, m, d, 0, 0)) && 1969 <= y <= 2068
    ensures Parse(Digits(d, 2) + " " + Digits(m, 2) + " " + Digits(y % 100, 2), DayMonthShortYear) == Some(Stamp(y, m, d, 0, 0))
  {
    var v := y % 100;
    var s := Digits(d, 2) + " " + Digits(m, 2) + " " + Digits(v, 2);
    TwoDigitField(d);
    TwoDigitField(m);
    TwoDigitField(v);
    PairsShape(Digits(d, 2), ' ', Digits(m, 2), Digits(v, 2));
    DayMonthShortYearMatches(s);
    ShortYearWindow(y);
  }

  /** %y reads back the last two digits of any year from 1969 through 2068. */
  lemma ShortYearWindow(y: nat)
    requires 1969 <= y <= 2068
    ensures ShortYear(y % 100) == y
  {
    if y >= 2000 {
      LastTwoDigits(y, 20);
    } else {
      LastTwoDigits(y, 19);
    }
  }

  lemma LastTwoDigits(y: nat, c: nat)
    requires 100 * c <= y < 100 * c + 100
    ensures y % 100 == y - 100 * c
  {
  }

  /** The year closes the string: `Y` four digits at position `p` read by %Y. */
  lemma YearTail(s: string, p: nat, t: Stamp)
    requires |s| == p + 4 && AllDigits(s[p..])
    ensures Match(s, p, [Year4] + [], t) == Some(t.(year := Value(s[p..])))
  {
    assert s[p..p + 4] == s[p..];
    MatchNumberStep(s, p, Year4, 4, [], t);
  }

  /** From position `n`, `s` is a space, a `w`-digit day, a comma, a space and four digits. */
  predicate DayCommaYearShaped(s: string, n: nat, w: nat)
  {
    && 1 <= w <= 2 && |s| == n + w + 7
    && s[n] == ' ' && s[n + w + 1] == ',' && s[n + w + 2] == ' '
    && AllDigits(s[n + 1..n + w + 1]) && AllDigits(s[n + w + 3..])
  }

  /** `s` is the `k`-th month name in any letter case and then a day and a year as above. */
  predicate NameDayYearShaped(s: string, k: nat, w: nat)
  {
    k < |MonthNames| && NameAt(s, 0, k) && DayCommaYearShaped(s, |MonthNames[k]|, w)
  }

  /** `, YYYY` closes the string from position `p`: a comma, a space and the year. */
  lemma CommaYearTail(s: string, p: nat, t: Stamp)
    requires |s| == p + 6 && s[p] == ',' && s[p + 1] == ' ' && AllDigits(s[p + 2..])
    ensures Match(s, p, [Lit(','), Lit(' '), Year4], t) == Some(t.(year := Value(s[p + 2..])))
  {
    assert [Lit(','), Lit(' '), Year4] == [Lit(',')] + ([Lit(' ')] + ([Year4] + []));
    MatchLitStep(s, p, ',', [Lit(' ')] + ([Year4] + []), t);
    MatchLitStep(s, p + 1, ' ', [Year4] + [], t);
    YearTail(s, p + 2, t);
  }

  /** ` %d, %Y` read from position `n`. */
  lemma DayCommaYearTail(s: string, n: nat, w: nat, t: Stamp)
    requires DayCommaYearShaped(s, n, w) && 1 <= Value(s[n + 1..n + w + 1]) <= 31
    ensures Match(s, n, MonthNameDayYear[1..], t)
      == Some(t.(day := Value(s[n + 1..n + w + 1]), year := Value(s[n + w + 3..])))
  {
    var tail := [Lit(','), Lit(' '), Year4];
    var t1 := t.(day := Value(s[n + 1..n + w + 1]));
    assert MonthNameDayYear[1..] == [Lit(' ')] + ([DayOfMonth] + tail);
    CommaYearTail(s, n + w + 1, t1);
    MatchNumberStep(s, n + 1, DayOfMonth, w, tail, t);
    MatchLitStep(s, n, ' ', [DayOfMonth] + tail, t);
  }

  /** A string shaped `%B %d, %Y` with the day in range matches that format field by field. */
  lemma NameDayYearMatches(s: string, k: nat, w: nat)
    requires NameDayYearShaped(s, k, w)
    requires var n := |MonthNames[k]|; 1 <= Value(s[n + 1..n + w + 1]) <= 31
    ensures var n := |MonthNames[k]|;
      Match(s, 0, MonthNameDayYear, Unset) == Some(Stamp(Value(s[n + w + 3..]), k + 1, Value(s[n + 1..n + w + 1]), 0, 0))
  {
    var n := |MonthNames[k]|;
    var t1 := Unset.(month := k + 1);
    assert MonthNameDayYear == [MonthName] + MonthNameDayYear[1..];
    DayCommaYearTail(s, n, w, t1);
    MatchNameStep(s, 0, k, n, MonthNameDayYear[1..], Unset, t1);
  }

  /** From position `p`, `s` is a space and then the four digits that end it. */
  predicate SpaceYearShaped(s: string, p: nat)
  {
    |s| == p + 5 && s[p] == ' ' && AllDigits(s[p + 1..])
  }

  /** `s` is a two-digit day, a space, the `k`-th month name in any letter case, a space and four digits. */
  predicate DayNameYearShaped(s: string, k: nat)
  {
    && k < |MonthNames| && 3 <= |s| && AllDigits(s[0..2]) && s[2] == ' '
    && NameAt(s, 3, k) && SpaceYearShaped(s, 3 + |MonthNames[k]|)
  }

  /** ` %Y` read from position `p` to the end. */
  lemma SpaceYearTail(s: string, p: nat, t: Stamp)
    requires SpaceYearShaped(s, p)
    ensures Match(s, p, [Lit(' '), Year4], t) == Some(t.(year := Value(s[p + 1..])))
  {
    assert [Lit(' '), Year4] == [Lit(' ')] + ([Year4] + []);
    MatchLitStep(s, p, ' ', [Year4] + [], t);
    YearTail(s, p + 1, t);
  }

  /** A string shaped `dd %B dddd` with the day in range matches %d %B %Y field by field. */
  lemma DayNameYearMatches(s: string, k: nat)
    requires DayNameYearShaped(s, k) && 1 <= Value(s[0..2]) <= 31
    ensures Match(s, 0, DayMonthNameYear, Unset)
      == Some(Stamp(Value(s[|MonthNames[k]| + 4..]), k + 1, Value(s[0..2]), 0, 0))
  {
    var p := 3 + |MonthNames[k]|;
    var t1 := Unset.(day := Value(s[0..2]));
    var t2 := t1.(month := k + 1);
    var tail := [Lit(' '), Year4];
    assert DayMonthNameYear == [DayOfMonth] + ([Lit(' ')] + ([MonthName] + tail));
    SpaceYearTail(s, p, t2);
    MatchNameStep(s, 3, k, p, tail, t1, t2);
    MatchLitStep(s, 2, ' ', [MonthName] + tail, t1);
    MatchNumberStep(s, 0, DayOfMonth, 2, [Lit(' ')] + ([MonthName] + tail), Unset);
  }

  /** `name` spells the `m`-th month, in any letter case. */
  predicate SpellsMonth(name: string, m: nat)
  {
    1 <= m <= 12 && LowerAll(name) == MonthNames[m - 1]
  }

  /** The unpadded day and the four-digit year of a calendar date. */
  lemma RenderedDayYear(y: nat, m: nat, d: nat)
    requires IsCalendarStamp(Stamp(y, m, d, 0, 0))
    ensures 1 <= |Digits(d, 1)| <= 2 && Value(Digits(d, 1)) == d
    ensures |Digits(y, 4)| == 4 && Value(Digits(y, 4)) == y
  {
    RenderedFields(y, m, d);
    ShortDigits(d);
    ValueOfDigits(d, 1);
  }

  lemma NameDayYearShape(name: string, k: nat, dd: string, yy: string)
    requires k < |MonthNames| && LowerAll(name) == MonthNames[k]
    requires 1 <= |dd| <= 2 && AllDigits(dd)
    requires |yy| == 4 && AllDigits(yy)
    ensures var s, n := name + " " + dd + ", " + yy, |name|;
      && NameDayYearShaped(s, k, |dd|)
      && s[n + 1..n + |dd| + 1] == dd && s[n + |dd| + 3..] == yy
  {
    var s := name + " " + dd + ", " + yy;
    assert s[0..|name|] == name;
    DayCommaYearShape(name + " ", dd, yy);
  }

  /** The day and year fields after a prefix `a` that ends in a space. */
  lemma DayCommaYearShape(a: string, dd: string, yy: string)
    requires |a| >= 1 && a[|a| - 1] == ' '
    requires 1 <= |dd| <= 2 && AllDigits(dd)
    requires |yy| == 4 && AllDigits(yy)
    ensures var s, n := a + dd + ", " + yy, |a| - 1;
      && DayCommaYearShaped(s, n, |dd|)
      && s[n + 1..n + |dd| + 1] == dd && s[n + |dd| + 3..] == yy
  {
    var p := a + dd + ", ";
    var s := p + yy;
    var n, w := |a| - 1, |dd|;
    assert s[n + 1..n + w + 1] == dd;
    assert s[n + w + 3..] == yy;
  }

  lemma DayNameYearShape(dd: string, name: string, k: nat, yy: string)
    requires k < |MonthNames| && LowerAll(name) == MonthNames[k]
    requires |dd| == 2 && AllDigits(dd) && |yy| == 4 && AllDigits(yy)
    ensures var s := dd + " " + name + " " + yy;
      && DayNameYearShaped(s, k) && s[0..2] == dd && s[|name| + 4..] == yy
  {
    var s := dd + " " + name + " " + yy;
    var p := 3 + |name|;
    assert s[0..2] == dd;
    assert s[3..p] == name;
    assert s[p + 1..] == yy;
  }

  /**
    Writing a calendar date as its month name, the unpadded day, a comma and
    the four-digit year, and parsing it with %B %d, %Y, gives it back.
  */
  lemma NameDayYearRoundTrip(name: string, y: nat, m: nat, d: nat)
    requires SpellsMonth(name, m) && IsCalendarStamp(Stamp(y, m, d, 0, 0))
    ensures Parse(name + " " + Digits(d, 1) + ", " + Digits(y, 4), MonthNameDayYear) == Some(Stamp(y, m, d, 0, 0))
  {
    var dd, yy := Digits(d, 1), Digits(y, 4);
    RenderedDayYear(y, m, d);
    NameDayYearShape(name, m - 1, dd, yy);
    NameDayYearMatches(name + " " + dd + ", " + yy, m - 1, |dd|);
  }

  /**
    Writing a calendar date as the two-digit day, its month name and the
    four-digit year, and parsing it with %d %B %Y, gives it back.
  */
  lemma DayNameYearRoundTrip(name: string, y: nat, m: nat, d: nat)
    requires SpellsMonth(name, m) && IsCalendarStamp(Stamp(y, m, d, 0, 0))
    ensures Parse(Digits(d, 2) + " " + name + " " + Digits(y, 4), DayMonthNameYear) == Some(Stamp(y, m, d, 0, 0))
  {
    var dd, yy := Digits(d, 2), Digits(y, 4);
    RenderedFields(y, m, d);
    DayNameYearShape(dd, name, m - 1, yy);
    DayNameYearMatches(dd + " " + name + " " + yy, m - 1);
  }
}
