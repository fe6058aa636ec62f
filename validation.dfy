/** The validation engine (src/utils/validation.ts): predicate-based
    validators that yield null or a field error, the UUID and calendar-date
    shape checks, and the collect-all `validate`. */
module Validation {
  import opened Wrappers
  import opened Text
  import opened Js
  import opened Errors

  // ---------------------------------------------------------------------------
  // validateInput

  /** `validateInput(pred, errorMsg)(v, inputName)`: null when the predicate
      accepts `v`, otherwise a field error naming the input and quoting `v`. */
  function ValidateInput(pred: JsValue -> bool, errorMsg: string, v: JsValue, inputName: string)
    : (r: Option<FieldError>)
    ensures r.None? <==> pred(v)
    ensures r.Some? ==> r.value.field == inputName && r.value.message == Show(v) + " " + errorMsg
  {
    if pred(v) then None else Some(FieldError(inputName, Show(v) + " " + errorMsg))
  }

  // ---------------------------------------------------------------------------
  // URL

  predicate IsSchemeChar(c: char) {
    IsAsciiLetter(c) || IsDigit(c) || c == '+' || c == '-' || c == '.'
  }

  /** Number of scheme characters at the start of `s`. */
  function SchemeLength(s: string): (n: nat)
    ensures n <= |s|
    ensures forall i :: 0 <= i < n ==> IsSchemeChar(s[i])
    ensures n < |s| ==> !IsSchemeChar(s[n])
  {
    if |s| == 0 || !IsSchemeChar(s[0]) then 0 else 1 + SchemeLength(s[1..])
  }

  predicate IsSlash(c: char) {
    c == '/' || c == '\\'
  }

  function DropSlashes(s: string): (r: string)
    ensures |r| <= |s|
    ensures |r| > 0 ==> !IsSlash(r[0])
  {
    if |s| > 0 && IsSlash(s[0]) then DropSlashes(s[1..]) else s
  }

  predicate IsSpecialScheme(scheme: string) {
    scheme == "http" || scheme == "https" || scheme == "ws" || scheme == "wss" || scheme == "ftp"
  }

  /** `isURL`: the string parses as an absolute URL. A scheme is a letter
      followed by letters, digits, `+`, `-` or `.`, ended by `:`; the
      hierarchical web schemes also need a non-empty host after the slashes. */
  predicate IsURL(s: string) {
    var n := SchemeLength(s);
    n > 0 && IsAsciiLetter(s[0]) && n < |s| && s[n] == ':'
    && (IsSpecialScheme(ToLower(s[..n])) ==>
          var rest := DropSlashes(s[n + 1..]);
          |rest| > 0 && rest[0] != '?' && rest[0] != '#')
  }

  predicate IsURLValue(v: JsValue) {
    IsURL(Show(v))
  }

  function ValidateUrl(v: JsValue, inputName: string): (r: Option<FieldError>)
    ensures r.None? <==> IsURL(Show(v))
    ensures r.Some? ==> r.value == FieldError(inputName, Show(v) + " is not a valid URL")
  {
    var r := ValidateInput(IsURLValue, "is not a valid URL", v, inputName);
    assert r.None? <==> IsURLValue(v);
    UrlMessageText();
    assert r.Some? ==> r.value == FieldError(inputName, Show(v) + " is not a valid URL");
    r
  }

  /** The messages of the validators, with the space `validateInput` puts
      before them. */
  lemma UrlMessageText()
    ensures " " + "is not a valid URL" == " is not a valid URL"
  {
  }

  lemma UUIDMessageText()
    ensures " " + "is not a valid UUID" == " is not a valid UUID"
  {
  }

  lemma DateMessageText()
    ensures " " + "is not a valid Date" == " is not a valid Date"
  {
  }

  lemma NumberMessageText()
    ensures " " + "is not a Number" == " is not a Number"
  {
  }

  lemma NonNegativeMessageText()
    ensures " " + "is not greater or equal than 0" == " is not greater or equal than 0"
  {
  }

  // ---------------------------------------------------------------------------
  // UUID

  /** Offsets of the four dashes in the 36-character form. */
  predicate IsDashOffset(i: int) {
    i == 8 || i == 13 || i == 18 || i == 23
  }

  /** The 8-4-4-4-12 hex layout without braces. */
  predicate IsUUIDCore(t: string) {
    |t| == 36 && forall i :: 0 <= i < 36 ==> if IsDashOffset(i) then t[i] == '-' else IsHexDigit(t[i])
  }

  function UUIDStart(s: string): nat {
    if |s| > 0 && s[0] == '{' then 1 else 0
  }

  function UUIDEnd(s: string): (e: nat)
    ensures UUIDStart(s) <= e <= |s|
  {
    if |s| > UUIDStart(s) && s[|s| - 1] == '}' then |s| - 1 else |s|
  }

  /** `isUUID`: an optional `{`, the hex groups 8-4-4-4-12 joined by `-` in
      either case, and an optional `}`. */
  predicate IsUUID(s: string) {
    IsUUIDCore(s[UUIDStart(s)..UUIDEnd(s)])
  }

  predicate IsUUIDValue(v: JsValue) {
    IsUUID(Show(v))
  }

  function ValidateUUID(v: JsValue, inputName: string): (r: Option<FieldError>)
    ensures r.None? <==> IsUUID(Show(v))
    ensures r.Some? ==> r.value == FieldError(inputName, Show(v) + " is not a valid UUID")
  {
    UUIDMessageText();
    ValidateInput(IsUUIDValue, "is not a valid UUID", v, inputName)
  }

  predicate IsHexString(g: string) {
    forall i :: 0 <= i < |g| ==> IsHexDigit(g[i])
  }

  /** Five hex groups of lengths 8, 4, 4, 4 and 12. */
  predicate IsUUIDGroups(groups: seq<string>) {
    |groups| == 5 && (forall k :: 0 <= k < 5 ==> IsHexString(groups[k]))
    && |groups[0]| == 8 && |groups[1]| == 4 && |groups[2]| == 4 && |groups[3]| == 4 && |groups[4]| == 12
  }

  /** The text of a UUID written from its groups, with or without braces. */
  function UUIDText(open: bool, groups: seq<string>, close: bool): string
    requires |groups| == 5
  {
    (if open then "{" else "")
    + groups[0] + "-" + groups[1] + "-" + groups[2] + "-" + groups[3] + "-" + groups[4]
    + (if close then "}" else "")
  }

  lemma UUIDCoreOfGroups(groups: seq<string>)
    requires IsUUIDGroups(groups)
    ensures IsUUIDCore(groups[0] + "-" + groups[1] + "-" + groups[2] + "-" + groups[3] + "-" + groups[4])
  {
    var t := groups[0] + "-" + groups[1] + "-" + groups[2] + "-" + groups[3] + "-" + groups[4];
    forall i | 0 <= i < 36
      ensures if IsDashOffset(i) then t[i] == '-' else IsHexDigit(t[i])
    {
      if i < 8 { assert t[i] == groups[0][i]; }
      else if 8 < i < 13 { assert t[i] == groups[1][i - 9]; }
      else if 13 < i < 18 { assert t[i] == groups[2][i - 14]; }
      else if 18 < i < 23 { assert t[i] == groups[3][i - 19]; }
      else if 23 < i { assert t[i] == groups[4][i - 24]; }
    }
  }

  /** Every brace/no-brace combination of well-formed groups is accepted. */
  lemma UUIDTextAccepted(open: bool, groups: seq<string>, close: bool)
    requires IsUUIDGroups(groups)
    ensures IsUUID(UUIDText(open, groups, close))
  {
    var core := groups[0] + "-" + groups[1] + "-" + groups[2] + "-" + groups[3] + "-" + groups[4];
    var s := UUIDText(open, groups, close);
    UUIDCoreOfGroups(groups);
    assert s == (if open then "{" else "") + core + (if close then "}" else "");
    assert UUIDStart(s) == (if open then 1 else 0) by {
      if !open { assert s[0] == groups[0][0]; }
    }
    assert UUIDEnd(s) == |s| - (if close then 1 else 0) by {
      if !close { assert s[|s| - 1] == groups[4][11]; }
    }
    assert s[UUIDStart(s)..UUIDEnd(s)] == core;
  }

  /** The five groups of a 36-character core. */
  function CoreGroups(t: string): seq<string>
    requires |t| == 36
  {
    [t[0..8], t[9..13], t[14..18], t[19..23], t[24..36]]
  }

  lemma CoreIsGroups(t: string)
    requires IsUUIDCore(t)
    ensures IsUUIDGroups(CoreGroups(t))
    ensures t == CoreGroups(t)[0] + "-" + CoreGroups(t)[1] + "-" + CoreGroups(t)[2] + "-"
               + CoreGroups(t)[3] + "-" + CoreGroups(t)[4]
  {
    var g := CoreGroups(t);
    forall k | 0 <= k < 5 ensures IsHexString(g[k]) {
      var off := if k == 0 then 0 else if k == 1 then 9 else if k == 2 then 14 else if k == 3 then 19 else 24;
      forall i | 0 <= i < |g[k]| ensures IsHexDigit(g[k][i]) {
        assert g[k][i] == t[off + i];
        assert !IsDashOffset(off + i);
      }
    }
    assert t[8] == '-' && t[13] == '-' && t[18] == '-' && t[23] == '-' by {
      assert IsDashOffset(8) && IsDashOffset(13) && IsDashOffset(18) && IsDashOffset(23);
    }
    assert t == t[0..8] + [t[8]] + t[9..13] + [t[13]] + t[14..18] + [t[18]] + t[19..23] + [t[23]] + t[24..36];
  }

  /** The groups of an accepted UUID text. */
  function UUIDGroupsOf(s: string): seq<string>
    requires IsUUID(s)
  {
    CoreGroups(s[UUIDStart(s)..UUIDEnd(s)])
  }

  function JoinGroups(groups: seq<string>): string
    requires |groups| == 5
  {
    groups[0] + "-" + groups[1] + "-" + groups[2] + "-" + groups[3] + "-" + groups[4]
  }

  lemma UUIDTextParts(open: bool, groups: seq<string>, close: bool)
    requires |groups| == 5
    ensures UUIDText(open, groups, close)
         == (if open then "{" else "") + JoinGroups(groups) + (if close then "}" else "")
  {
  }

  /** Every accepted text is the writing of five well-formed groups. */
  lemma UUIDAcceptedIsText(s: string)
    requires IsUUID(s)
    ensures IsUUIDGroups(UUIDGroupsOf(s))
    ensures s == UUIDText(UUIDStart(s) == 1, UUIDGroupsOf(s), UUIDEnd(s) < |s|)
  {
    var t := s[UUIDStart(s)..UUIDEnd(s)];
    CoreIsGroups(t);
    var g := UUIDGroupsOf(s);
    assert t == JoinGroups(g);
    var prefix := if UUIDStart(s) == 1 then "{" else "";
    var suffix := if UUIDEnd(s) < |s| then "}" else "";
    assert s[..UUIDStart(s)] == prefix;
    assert s[UUIDEnd(s)..] == suffix;
    assert s == prefix + t + suffix by {
      assert s == s[..UUIDStart(s)] + t + s[UUIDEnd(s)..];
    }
    UUIDTextParts(UUIDStart(s) == 1, g, UUIDEnd(s) < |s|);
  }

  /** `isUUID` strips exactly the braces written around a text that neither
      starts nor ends with a brace of its own. */
  lemma BracesStripped(open: bool, core: string, close: bool)
    requires |core| > 0 && core[0] != '{' && core[|core| - 1] != '}'
    ensures var s := (if open then "{" else "") + core + (if close then "}" else "");
      && UUIDStart(s) == (if open then 1 else 0)
      && UUIDEnd(s) == |s| - (if close then 1 else 0)
  {
    var s := (if open then "{" else "") + core + (if close then "}" else "");
    if !open {
      assert s[0] == core[0];
    }
    if !close {
      assert s[|s| - 1] == core[|core| - 1];
    }
  }

  /** The braces `isUUID` strips from a text written from hex groups are
      exactly the ones written. */
  lemma UUIDTextBounds(open: bool, groups: seq<string>, close: bool)
    requires |groups| == 5 && forall k :: 0 <= k < 5 ==> IsHexString(groups[k])
    requires |groups[0]| == 8
    ensures var s := UUIDText(open, groups, close);
      && UUIDStart(s) == (if open then 1 else 0)
      && UUIDEnd(s) == |s| - (if close then 1 else 0)
  {
    var core := groups[0] + "-" + groups[1] + "-" + groups[2] + "-" + groups[3] + "-" + groups[4];
    assert core[0] == groups[0][0];
    assert IsHexDigit(groups[0][0]);
    if |groups[4]| > 0 {
      assert core[|core| - 1] == groups[4][|groups[4]| - 1];
      assert IsHexDigit(groups[4][|groups[4]| - 1]);
    } else {
      assert core[|core| - 1] == '-';
    }
    BracesStripped(open, core, close);
  }

  /** A last group of any length but twelve is refused. */
  lemma UUIDWrongLastGroupRejected(open: bool, groups: seq<string>, close: bool)
    requires |groups| == 5 && forall k :: 0 <= k < 5 ==> IsHexString(groups[k])
    requires |groups[0]| == 8 && |groups[1]| == 4 && |groups[2]| == 4 && |groups[3]| == 4
    requires |groups[4]| != 12
    ensures !IsUUID(UUIDText(open, groups, close))
  {
    var s := UUIDText(open, groups, close);
    UUIDTextBounds(open, groups, close);
    assert |s| == (if open then 1 else 0) + 24 + |groups[4]| + (if close then 1 else 0);
    assert |s[UUIDStart(s)..UUIDEnd(s)]| == 24 + |groups[4]|;
  }

  // ---------------------------------------------------------------------------
  // Date

  /** Month text `0[1-9]|1[012]`. */
  predicate IsMonthText(a: char, b: char) {
    (a == '0' && '1' <= b <= '9') || (a == '1' && (b == '0' || b == '1' || b == '2'))
  }

  /** Day text `0[1-9]|[12][0-9]|3[01]`. */
  predicate IsDayText(a: char, b: char) {
    (a == '0' && '1' <= b <= '9') || ((a == '1' || a == '2') && IsDigit(b)) || (a == '3' && (b == '0' || b == '1'))
  }

  /** `^(\d{4}-(0[1-9]|1[012])-(0[1-9]|[12][0-9]|3[01]))$`. */
  predicate MatchesDateRegex(s: string) {
    |s| == 10 && IsDigit(s[0]) && IsDigit(s[1]) && IsDigit(s[2]) && IsDigit(s[3])
    && s[4] == '-' && IsMonthText(s[5], s[6]) && s[7] == '-' && IsDayText(s[8], s[9])
  }

  function YearOf(s: string): nat
    requires MatchesDateRegex(s)
  {
    DigitValue(s[0]) * 1000 + DigitValue(s[1]) * 100 + DigitValue(s[2]) * 10 + DigitValue(s[3])
  }

  function MonthOf(s: string): nat
    requires MatchesDateRegex(s)
  {
    DigitValue(s[5]) * 10 + DigitValue(s[6])
  }

  function DayOf(s: string): nat
    requires MatchesDateRegex(s)
  {
    DigitValue(s[8]) * 10 + DigitValue(s[9])
  }

  /** `leapYear`. */
  predicate LeapYear(year: nat) {
    (year % 4 == 0 && year % 100 != 0) || year % 400 == 0
  }

  /** The day checks of `isDate`: February by `leapYear`, then the thirty-day
      months. */
  predicate WithinMonthLimit(year: nat, month: nat, day: nat) {
    if month == 2 then
      if LeapYear(year) && day > 29 then false
      else if !LeapYear(year) && day > 28 then false
      else true
    else if month == 4 || month == 6 || month == 9 || month == 11 then
      !(day > 30)
    else true
  }

  /** `isDate`: the regex shape, then the day limit of the month. */
  predicate IsDate(s: string) {
    MatchesDateRegex(s) && WithinMonthLimit(YearOf(s), MonthOf(s), DayOf(s))
  }

  predicate IsDateValue(v: JsValue) {
    IsDate(Show(v))
  }

  function ValidateDate(v: JsValue, inputName: string): (r: Option<FieldError>)
    ensures r.None? <==> IsDate(Show(v))
    ensures r.Some? ==> r.value == FieldError(inputName, Show(v) + " is not a valid Date")
  {
    DateMessageText();
    ValidateInput(IsDateValue, "is not a valid Date", v, inputName)
  }

  /** Length of a month in the Gregorian calendar: a year is a leap year when
      it is divisible by 4, except century years not divisible by 400. */
  function DaysInMonth(year: nat, month: nat): nat
    requires 1 <= month <= 12
  {
    if month == 2 then (if year % 4 == 0 && (year % 100 != 0 || year % 400 == 0) then 29 else 28)
    else if month == 4 || month == 6 || month == 9 || month == 11 then 30
    else 31
  }

  predicate IsCalendarDate(year: nat, month: nat, day: nat) {
    1 <= month <= 12 && 1 <= day <= DaysInMonth(year, month)
  }

  function Pad2(n: nat): (r: string)
    requires n < 100
  {
    [DigitChar(n / 10), DigitChar(n % 10)]
  }

  function Pad4(n: nat): string
    requires n < 10000
  {
    [DigitChar(n / 1000), DigitChar(n / 100 % 10), DigitChar(n / 10 % 10), DigitChar(n % 10)]
  }

  /** `YYYY-MM-DD` with zero padding. */
  function FormatDate(year: nat, month: nat, day: nat): string
    requires year < 10000 && month < 100 && day < 100
  {
    Pad4(year) + "-" + Pad2(month) + "-" + Pad2(day)
  }

  lemma MonthTextRange(a: char, b: char)
    requires IsDigit(a) && IsDigit(b)
    ensures IsMonthText(a, b) <==> 1 <= DigitValue(a) * 10 + DigitValue(b) <= 12
  {
  }

  lemma DayTextRange(a: char, b: char)
    requires IsDigit(a) && IsDigit(b)
    ensures IsDayText(a, b) <==> 1 <= DigitValue(a) * 10 + DigitValue(b) <= 31
  {
  }

  lemma DigitCharOfValue(c: char)
    requires IsDigit(c)
    ensures DigitChar(DigitValue(c)) == c
  {
  }

  lemma TwoDigits(n: nat)
    requires n < 100
    ensures n / 10 < 10 && n / 10 * 10 + n % 10 == n
  {
  }

  lemma SplitTwoDigits(a: nat, b: nat)
    requires a < 10 && b < 10
    ensures (a * 10 + b) / 10 == a && (a * 10 + b) % 10 == b
  {
  }

  lemma FourDigits(n: nat)
    requires n < 10000
    ensures n / 1000 < 10
    ensures n / 1000 * 1000 + n / 100 % 10 * 100 + n / 10 % 10 * 10 + n % 10 == n
  {
    assert n / 100 == n / 1000 * 10 + n / 100 % 10;
    assert n / 10 == n / 100 * 10 + n / 10 % 10;
    assert n == n / 10 * 10 + n % 10;
  }

  lemma SplitFourDigits(a: nat, b: nat, c: nat, d: nat)
    requires a < 10 && b < 10 && c < 10 && d < 10
    ensures var n := a * 1000 + b * 100 + c * 10 + d;
      n / 1000 == a && n / 100 % 10 == b && n / 10 % 10 == c && n % 10 == d
  {
    var n := a * 1000 + b * 100 + c * 10 + d;
    assert n / 10 == a * 100 + b * 10 + c;
    assert n / 100 == a * 10 + b;
    assert n / 1000 == a;
  }

  /** On a month and day the regex admits, the day checks of `isDate` are
      the Gregorian month lengths. */
  lemma MonthLimitIsCalendar(year: nat, month: nat, day: nat)
    requires 1 <= month <= 12 && 1 <= day <= 31
    ensures WithinMonthLimit(year, month, day) <==> IsCalendarDate(year, month, day)
  {
    assert LeapYear(year) <==> year % 4 == 0 && (year % 100 != 0 || year % 400 == 0);
  }

  /** The day limits `isDate` applies are those of the Gregorian calendar. */
  lemma IsDateMeansCalendarDate(s: string)
    ensures IsDate(s) <==> MatchesDateRegex(s) && IsCalendarDate(YearOf(s), MonthOf(s), DayOf(s))
  {
    if MatchesDateRegex(s) {
      MonthTextRange(s[5], s[6]);
      DayTextRange(s[8], s[9]);
      MonthLimitIsCalendar(YearOf(s), MonthOf(s), DayOf(s));
    }
  }

  /** Every accepted text is the zero-padded writing of a calendar date. */
  lemma AcceptedDateIsFormatted(s: string)
    requires IsDate(s)
    ensures YearOf(s) < 10000 && MonthOf(s) < 100 && DayOf(s) < 100
    ensures IsCalendarDate(YearOf(s), MonthOf(s), DayOf(s))
    ensures s == FormatDate(YearOf(s), MonthOf(s), DayOf(s))
  {
    IsDateMeansCalendarDate(s);
    var y, m, d := YearOf(s), MonthOf(s), DayOf(s);
    SplitFourDigits(DigitValue(s[0]), DigitValue(s[1]), DigitValue(s[2]), DigitValue(s[3]));
    SplitTwoDigits(DigitValue(s[5]), DigitValue(s[6]));
    SplitTwoDigits(DigitValue(s[8]), DigitValue(s[9]));
    DigitCharOfValue(s[0]);
    DigitCharOfValue(s[1]);
    DigitCharOfValue(s[2]);
    DigitCharOfValue(s[3]);
    DigitCharOfValue(s[5]);
    DigitCharOfValue(s[6]);
    DigitCharOfValue(s[8]);
    DigitCharOfValue(s[9]);
    assert Pad4(y) == s[0..4];
    assert Pad2(m) == s[5..7];
    assert Pad2(d) == s[8..10];
    assert s == s[0..4] + "-" + s[5..7] + "-" + s[8..10];
  }

  /** A zero-padded date text is accepted exactly when it names a calendar date. */
  lemma FormattedDateAccepted(year: nat, month: nat, day: nat)
    requires year < 10000 && month < 100 && day < 100
    ensures IsDate(FormatDate(year, month, day)) <==> IsCalendarDate(year, month, day)
  {
    var s := FormatDate(year, month, day);
    FourDigits(year);
    TwoDigits(month);
    TwoDigits(day);
    assert s[0] == DigitChar(year / 1000) && s[1] == DigitChar(year / 100 % 10);
    assert s[2] == DigitChar(year / 10 % 10) && s[3] == DigitChar(year % 10);
    assert s[4] == '-' && s[7] == '-';
    assert s[5] == DigitChar(month / 10) && s[6] == DigitChar(month % 10);
    assert s[8] == DigitChar(day / 10) && s[9] == DigitChar(day % 10);
    MonthTextRange(s[5], s[6]);
    DayTextRange(s[8], s[9]);
    assert DigitValue(s[5]) * 10 + DigitValue(s[6]) == month;
    assert DigitValue(s[8]) * 10 + DigitValue(s[9]) == day;
    assert MatchesDateRegex(s) <==> 1 <= month <= 12 && 1 <= day <= 31;
    IsDateMeansCalendarDate(s);
  }

  // ---------------------------------------------------------------------------
  // Number

  /** `isNumber`: `Number(v)` is an integer. */
  predicate IsNumber(v: JsValue) {
    ToInteger(v).Some?
  }

  function ValidateNumber(v: JsValue, inputName: string): (r: Option<FieldError>)
    ensures r.None? <==> ToInteger(v).Some?
    ensures r.Some? ==> r.value == FieldError(inputName, Show(v) + " is not a Number")
  {
    NumberMessageText();
    ValidateInput(IsNumber, "is not a Number", v, inputName)
  }

  /** `isGreaterOrEqualThan0`: `Number(v) >= 0`. */
  predicate IsGreaterOrEqualThan0(v: JsValue) {
    ToInteger(v).Some? && ToInteger(v).value >= 0
  }

  function ValidateGreaterOrEqualThan0(v: JsValue, inputName: string): (r: Option<FieldError>)
    ensures r.None? <==> ToInteger(v).Some? && ToInteger(v).value >= 0
    ensures r.Some? ==> r.value == FieldError(inputName, Show(v) + " is not greater or equal than 0")
  {
    NonNegativeMessageText();
    ValidateInput(IsGreaterOrEqualThan0, "is not greater or equal than 0", v, inputName)
  }

  // ---------------------------------------------------------------------------
  // Validators used by the resolvers whose definitions are not part of this
  // model's sources; predicates and messages follow their unit tests.

  /** `isNotNull`. */
  predicate IsNotNull(v: JsValue) {
    v != JsNull
  }

  function ValidateNotNull(v: JsValue, inputName: string): (r: Option<FieldError>)
    ensures r.None? <==> v != JsNull
    ensures v == JsNull ==> r == Some(FieldError(inputName, "null is not a valid value"))
  {
    var r := ValidateInput(IsNotNull, "is not a valid value", v, inputName);
    assert v == JsNull ==> Show(v) + " " + "is not a valid value" == "null is not a valid value";
    r
  }

  /** `isNotEmpty`: a number, or a string, array or object with at least one
      character, element or own key. */
  predicate IsNotEmpty(v: JsValue) {
    match v
    case JsUndefined => false
    case JsNull => false
    case JsNumber(_) => true
    case JsString(s) => |s| > 0
    case JsArray(items) => |items| > 0
    case JsObject(entries) => |entries| > 0
  }

  function ValidateEmpty(v: JsValue, inputName: string): (r: Option<FieldError>)
    ensures r.None? <==> IsNotEmpty(v)
    ensures r.Some? ==> r.value == FieldError(inputName, Show(v) + " cannot be empty")
  {
    ValidateInput(IsNotEmpty, "cannot be empty", v, inputName)
  }

  /** `Number.MAX_SAFE_INTEGER`, the default upper bound of a range. */
  const MaxSafeInteger: int := 9007199254740991

  /** `isInRange(min, max, v)`. */
  predicate IsInRange(min: int, max: int, v: JsValue) {
    ToInteger(v).Some? && min <= ToInteger(v).value <= max
  }

  /** A bound that JavaScript treats as true in a condition: given and not 0. */
  predicate Truthy(bound: Option<int>) {
    bound.Some? && bound.value != 0
  }

  /** The message of `validateInRange`: both bounds are named only when both
      are truthy, so `{ min: 0, max }` reports the lower bound alone. */
  function RangeMessage(min: Option<int>, max: Option<int>): string {
    var lo := if min.Some? then min.value else 0;
    if Truthy(min) && Truthy(max) then "should be between " + IntToString(lo) + " and " + IntToString(max.value)
    else "should be greater than or equal " + IntToString(lo)
  }

  /** `validateInRange(v, inputName, { min, max })` with defaults 0 and
      `Number.MAX_SAFE_INTEGER`. */
  function ValidateInRange(v: JsValue, inputName: string, min: Option<int>, max: Option<int>)
    : (r: Option<FieldError>)
    ensures r.None? <==> IsInRange(if min.Some? then min.value else 0,
                                   if max.Some? then max.value else MaxSafeInteger, v)
    ensures r.Some? ==> r.value == FieldError(inputName, Show(v) + " " + RangeMessage(min, max))
  {
    var lo := if min.Some? then min.value else 0;
    var hi := if max.Some? then max.value else MaxSafeInteger;
    ValidateInput(v' => IsInRange(lo, hi, v'), RangeMessage(min, max), v, inputName)
  }

  lemma TwoDigitNumerals()
    ensures IntToString(10) == "10" && IntToString(11) == "11" && IntToString(15) == "15"
  {
    assert NatToString(1) == "1";
  }

  /** Below its lower bound the range check names only `min` when only
      `min` is given. */
  lemma RangeMessageLowerOnly()
    ensures ValidateInRange(JsNumber(10), "range", Some(11), None)
         == Some(FieldError("range", "10" + " " + ("should be greater than or equal " + "11")))
  {
    TwoDigitNumerals();
  }

  /** Below its lower bound the range check names both bounds when both are
      given and non-zero. */
  lemma RangeMessageBothBounds()
    ensures ValidateInRange(JsNumber(10), "range", Some(11), Some(15))
         == Some(FieldError("range", "10" + " " + ("should be between " + "11" + " and " + "15")))
  {
    TwoDigitNumerals();
  }

  /** `v.length` for strings and arrays. */
  function LengthOf(v: JsValue): Option<nat> {
    match v
    case JsString(s) => Some(|s|)
    case JsArray(items) => Some(|items|)
    case _ => None
  }

  predicate HasLengthAtLeast(min: nat, v: JsValue) {
    LengthOf(v).Some? && LengthOf(v).value >= min
  }

  /** `validateLength(v, inputName, { min })`. */
  function ValidateLength(v: JsValue, inputName: string, min: nat): (r: Option<FieldError>)
    ensures r.None? <==> HasLengthAtLeast(min, v)
    ensures r.Some? ==> r.value == FieldError(inputName, Show(v) + " "
                                                         + ("should have a length greater than or equal " + IntToString(min)))
  {
    ValidateInput(v' => HasLengthAtLeast(min, v'),
                  "should have a length greater than or equal " + IntToString(min), v, inputName)
  }

  // ---------------------------------------------------------------------------
  // validate

  predicate AllValid(inputs: seq<Option<FieldError>>) {
    forall i :: 0 <= i < |inputs| ==> inputs[i].None?
  }

  lemma AllValidAppend(a: seq<Option<FieldError>>, b: seq<Option<FieldError>>)
    ensures AllValid(a + b) <==> AllValid(a) && AllValid(b)
  {
    if AllValid(a) && AllValid(b) {
      forall i | 0 <= i < |a + b|
        ensures (a + b)[i].None?
      {
        if i >= |a| {
          assert (a + b)[i] == b[i - |a|];
        }
      }
    }
    if AllValid(a + b) {
      forall i | 0 <= i < |a|
        ensures a[i].None?
      {
        assert (a + b)[i] == a[i];
      }
      forall i | 0 <= i < |b|
        ensures b[i].None?
      {
        assert (a + b)[|a| + i] == b[i];
      }
    }
  }

  /** One failing check fails the list. */
  lemma OneFailureFails(c: seq<Option<FieldError>>, i: nat)
    requires i < |c| && c[i].Some?
    ensures !AllValid(c)
  {
  }

  /** `inputs.filter(v => v !== null)`. */
  function Failures(inputs: seq<Option<FieldError>>): seq<FieldError>
    decreases |inputs|
  {
    if |inputs| == 0 then []
    else (if inputs[0].Some? then [inputs[0].value] else []) + Failures(inputs[1..])
  }

  /** Filtering distributes over concatenation: together with the one-entry
      case this pins the result down as the non-null entries in input order. */
  lemma {:induction false} FailuresAppend(a: seq<Option<FieldError>>, b: seq<Option<FieldError>>)
    ensures Failures(a + b) == Failures(a) + Failures(b)
    decreases |a|
  {
    if |a| == 0 {
      assert a + b == b;
    } else {
      assert (a + b)[0] == a[0];
      assert (a + b)[1..] == a[1..] + b;
      FailuresAppend(a[1..], b);
      ConcatAssoc(if a[0].Some? then [a[0].value] else [], Failures(a[1..]), Failures(b));
    }
  }

  lemma FailuresOne(x: Option<FieldError>)
    ensures Failures([x]) == if x.Some? then [x.value] else []
  {
  }

  lemma {:induction false} FailuresEmptyIff(inputs: seq<Option<FieldError>>)
    ensures Failures(inputs) == [] <==> AllValid(inputs)
    decreases |inputs|
  {
    if |inputs| > 0 {
      FailuresEmptyIff(inputs[1..]);
      assert AllValid(inputs) <==> inputs[0].None? && AllValid(inputs[1..]);
    }
  }

  function FieldNames(errors: seq<FieldError>): (names: seq<string>)
    ensures |names| == |errors|
    ensures forall i :: 0 <= i < |errors| ==> names[i] == errors[i].field
  {
    seq(|errors|, i requires 0 <= i < |errors| => errors[i].field)
  }

  function ValidationMessage(errors: seq<FieldError>): string {
    "Input validation failed for fields: [" + Join(FieldNames(errors), ", ") + "]"
  }

  /** `validate(inputs)`: returns when every entry is null, and otherwise
      throws one `InvalidInputError` carrying every non-null entry. */
  function Validate(inputs: seq<Option<FieldError>>): (r: Outcome<Error>)
    ensures r.Pass? <==> AllValid(inputs)
    ensures r.Fail? ==> InstanceOf(r.error, InvalidInputError)
    ensures r.Fail? ==> r.error.validations == Failures(inputs)
    ensures r.Fail? ==> r.error.message == ValidationMessage(Failures(inputs))
  {
    FailuresEmptyIff(inputs);
    var errors := Failures(inputs);
    if |errors| < 1 then Pass
    else Fail(NewInvalidInputError(ValidationMessage(errors), errors))
  }

  /** With a single failing entry the message names just that field. */
  lemma ValidateOneFailure(inputs: seq<Option<FieldError>>, e: FieldError)
    requires Failures(inputs) == [e]
    ensures Validate(inputs).Fail?
    ensures Validate(inputs).error.message == "Input validation failed for fields: [" + e.field + "]"
  {
    assert FieldNames([e]) == [e.field];
    FailuresEmptyIff(inputs);
  }

  lemma {:induction false} FailuresOfThree(x: FieldError, y: FieldError, z: FieldError)
    ensures Failures([Some(x), Some(y), Some(z)]) == [x, y, z]
  {
    FailuresAppend([Some(x)], [Some(y), Some(z)]);
    FailuresAppend([Some(y)], [Some(z)]);
    assert [Some(x), Some(y), Some(z)] == [Some(x)] + [Some(y), Some(z)];
    assert [Some(y), Some(z)] == [Some(y)] + [Some(z)];
    FailuresOne(Some(x));
    FailuresOne(Some(y));
    FailuresOne(Some(z));
  }

  /** Three failing entries are reported together, in input order. */
  /** Three failures are named in order, separated by commas. */
  lemma ValidationMessageOfThree(x: FieldError, y: FieldError, z: FieldError)
    ensures ValidationMessage([x, y, z])
         == "Input validation failed for fields: [" + x.field + ", " + y.field + ", " + z.field + "]"
  {
    assert FieldNames([x, y, z]) == [x.field, y.field, z.field];
    JoinThree(x.field, y.field, z.field, ", ");
  }

  lemma ValidateThreeFailures(x: FieldError, y: FieldError, z: FieldError)
    ensures Validate([Some(x), Some(y), Some(z)]).Fail?
    ensures Validate([Some(x), Some(y), Some(z)]).error.validations == [x, y, z]
    ensures Validate([Some(x), Some(y), Some(z)]).error.message
         == "Input validation failed for fields: [" + x.field + ", " + y.field + ", " + z.field + "]"
  {
    FailuresOfThree(x, y, z);
    ValidationMessageOfThree(x, y, z);
  }

  lemma ExampleIsNoURL()
    ensures !IsURL("example")
  {
    assert SchemeLength("example") == 7;
  }

  /** The id of the unit tests with its last digit missing. */
  const ShortId: string := "6a1d8f0b-4c3e-2d1a-9f6b-8e7c5a3d0e9"

  lemma ShortUUIDRejected()
    ensures |ShortId| == 35
    ensures !IsUUID(ShortId)
  {
    assert UUIDStart(ShortId) == 0 && UUIDEnd(ShortId) == 35;
  }

  lemma ExampleUrlFails()
    ensures ValidateUrl(JsString("example"), "url") == Some(FieldError("url", "example" + " is not a valid URL"))
  {
    ExampleIsNoURL();
  }

  lemma ShortUUIDFails()
    ensures ValidateUUID(JsString(ShortId), "id") == Some(FieldError("id", ShortId + " is not a valid UUID"))
  {
    ShortUUIDRejected();
  }

  /** Every failing field is reported, in the order of the inputs: a bad URL,
      a UUID one digit short and an empty list. */
  lemma ValidateReportsEveryField()
    ensures var inputs := [ValidateUrl(JsString("example"), "url"),
                           ValidateUUID(JsString(ShortId), "id"),
                           ValidateEmpty(JsArray([]), "empty")];
      Validate(inputs).Fail?
      && Validate(inputs).error.message == "Input validation failed for fields: [url, id, empty]"
  {
    ExampleIsNoURL();
    ShortUUIDRejected();
    var x := ValidateUrl(JsString("example"), "url");
    var y := ValidateUUID(JsString(ShortId), "id");
    var z := ValidateEmpty(JsArray([]), "empty");
    assert x.Some? && x.value.field == "url";
    assert y.Some? && y.value.field == "id";
    assert z.Some? && z.value.field == "empty";
    ValidateThreeFailures(x.value, y.value, z.value);
    FieldListText();
  }

  lemma FieldListText()
    ensures "Input validation failed for fields: [" + "url" + ", " + "id" + ", " + "empty" + "]"
         == "Input validation failed for fields: [url, id, empty]"
  {
  }

  // ---------------------------------------------------------------------------
  // isNull / isUndefined / isNil

  predicate IsNull(v: JsValue) {
    v == JsNull
  }

  predicate IsUndefined(v: JsValue) {
    v == JsUndefined
  }

  /** `isNil`: null or undefined, and nothing that carries data. */
  predicate IsNil(v: JsValue)
    ensures IsNil(v) <==> !(v.JsNumber? || v.JsString? || v.JsArray? || v.JsObject?)
    ensures IsUndefined(v) ==> !IsNull(v)
  {
    IsNull(v) || IsUndefined(v)
  }
}
