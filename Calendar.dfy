/**
 * Calendar dates and the parse of a date string under the format
 * `%Y-%b-%d`, as `pd.to_datetime(..., format="%Y-%b-%d")` does it:
 * the text must match the pattern as a whole (a four-digit year, a dash,
 * a month abbreviation in any letter case, a dash, a day of the month),
 * and the fields must then form a date of the Gregorian calendar.
 */
module Calendar {
  import opened Wrappers
  import opened Text

  datatype Date = Date(year: int, month: int, day: int)

  /** Why a date string was refused. */
  datatype DateError =
    | NoMatch      // the text does not match the format ("does not match format")
    | InvalidDate  // the fields match but name no calendar day ("day is out of range for month")

  predicate IsLeapYear(y: int)
  {
    y % 4 == 0 && (y % 100 != 0 || y % 400 == 0)
  }

  function DaysInMonth(y: int, m: int): (n: int)
    requires 1 <= m <= 12
    ensures 28 <= n <= 31
    ensures n == 31 <==> m in {1, 3, 5, 7, 8, 10, 12}
    ensures n == 30 <==> m in {4, 6, 9, 11}
    ensures m == 2 ==> (n == 29 <==> IsLeapYear(y))
  {
    if m == 2 then (if IsLeapYear(y) then 29 else 28)
    else if m in {4, 6, 9, 11} then 30
    else 31
  }

  predicate IsValidDate(d: Date)
  {
    1 <= d.year && 1 <= d.month <= 12 && 1 <= d.day <= DaysInMonth(d.year, d.month)
  }

  /** The English month abbreviations, January first. */
  const MonthAbbreviations: seq<string> :=
    ["Jan", "Feb", "Mar", "Apr", "May", "Jun", "Jul", "Aug", "Sep", "Oct", "Nov", "Dec"]

  /** The position (from 1) of `name` in `table`, if it occurs there. */
  function IndexIn(table: seq<string>, name: string): (r: Option<int>)
    ensures r.Some? <==> name in table
    ensures r.Some? ==> 1 <= r.value <= |table| && table[r.value - 1] == name
    ensures r.Some? ==> name !in table[..r.value - 1]
  {
    if table == [] then None
    else if table[0] == name then Some(1)
    else match IndexIn(table[1..], name)
      case None => None
      case Some(k) => Some(k + 1)
  }

  /** The number of a month written exactly as in `MonthAbbreviations`. */
  function MonthNumber(name: string): (r: Option<int>)
    ensures r.Some? <==> name in MonthAbbreviations
    ensures r.Some? ==> 1 <= r.value <= 12 && MonthAbbreviations[r.value - 1] == name
  {
    IndexIn(MonthAbbreviations, name)
  }

  /** No abbreviation is listed twice. */
  lemma AbbreviationsDistinct(j: int, k: int)
    requires 0 <= j < 12 && 0 <= k < 12 && MonthAbbreviations[j] == MonthAbbreviations[k]
    ensures j == k
  {
    var a, b := MonthAbbreviations[j], MonthAbbreviations[k];
    assert a[0] == b[0] && a[1] == b[1] && a[2] == b[2];
  }

  /** The same abbreviations in lower case, as `%b` compares them. */
  const LowerMonthAbbreviations: seq<string> :=
    ["jan", "feb", "mar", "apr", "may", "jun", "jul", "aug", "sep", "oct", "nov", "dec"]

  /** `%b`: the field compared with each month abbreviation in turn, without regard to letter case. */
  function ParseMonth(field: string): Option<int>
  {
    var l := LowerAll(field);
    if l == "jan" then Some(1) else if l == "feb" then Some(2) else if l == "mar" then Some(3)
    else if l == "apr" then Some(4) else if l == "may" then Some(5) else if l == "jun" then Some(6)
    else if l == "jul" then Some(7) else if l == "aug" then Some(8) else if l == "sep" then Some(9)
    else if l == "oct" then Some(10) else if l == "nov" then Some(11) else if l == "dec" then Some(12)
    else None
  }

  /** A month that `%b` reads is the one whose lower-case abbreviation the lowered field is. */
  lemma ParseMonthFound(field: string)
    requires ParseMonth(field).Some?
    ensures var k := ParseMonth(field).value;
      1 <= k <= 12 && LowerAll(field) == LowerMonthAbbreviations[k - 1]
  {
  }

  /** A field whose lowered text is the k-th lower-case abbreviation reads as month k. */
  lemma ParseMonthOfLower(field: string, k: int)
    requires 1 <= k <= 12 && LowerAll(field) == LowerMonthAbbreviations[k - 1]
    ensures ParseMonth(field) == Some(k)
  {
  }

  lemma LowerOfAbbreviation(k: int)
    requires 0 <= k < 12
    ensures LowerAll(MonthAbbreviations[k]) == LowerMonthAbbreviations[k]
  {
    var a, l := MonthAbbreviations[k], LowerMonthAbbreviations[k];
    assert |a| == 3 && |l| == 3;
    assert forall i :: 0 <= i < 3 ==> Lower(a[i]) == l[i];
  }

  /**
   * `%d`: the whole field must match `3[01]|[12][0-9]|0[1-9]|[1-9]| [1-9]`,
   * that is a day from 1 to 31 in one or two digits, or one digit after a space.
   */
  function ParseDay(field: string): (r: Option<int>)
    ensures r.Some? ==> 1 <= r.value <= 31
    ensures r.Some? ==> 1 <= |field| <= 2 && forall i :: 0 <= i < |field| ==> field[i] == ' ' || IsDigit(field[i])
  {
    if |field| == 1 && '1' <= field[0] <= '9' then Some(DigitValue(field[0]))
    else if |field| == 2 && field[0] == ' ' && '1' <= field[1] <= '9' then Some(DigitValue(field[1]))
    else if |field| == 2 && AllDigits(field) && 1 <= DigitsValue(field) <= 31 then Some(DigitsValue(field))
    else None
  }

  /** The day field accepts exactly the decimal renderings of 1 to 31. */
  lemma ParseDayOfDecimal(d: int)
    ensures ParseDay(DecimalString(d)) == if 1 <= d <= 31 then Some(d) else None
  {
    var s := DecimalString(d);
    if d >= 0 {
      assert DigitsValue(s) == d;
      if d < 10 {
        assert |s| == 1;
        assert s[..0] == [];
      } else if d < 100 {
        assert |s| == 2;
        assert s[..1] == [s[0]];
        assert s[..1][..0] == [];
      }
    }
  }

  /** `%Y-%b-%d` applied to `s`. */
  function ParseDate(s: string): (r: Result<Date, DateError>)
    ensures r.Ok? ==> IsValidDate(r.value)
  {
    if |s| < 10 || !AllDigits(s[..4]) || s[4] != '-' || s[8] != '-' then Err(NoMatch)
    else FieldsToDate(DigitsValue(s[..4]), ParseMonth(s[5..8]), ParseDay(s[9..]))
  }

  /** The date the three parsed fields name: a field that did not match fails the match, a day past the month's end names no date. */
  function FieldsToDate(year: int, month: Option<int>, day: Option<int>): (r: Result<Date, DateError>)
    ensures r.Ok? ==> IsValidDate(r.value)
  {
    if month.None? || day.None? then Err(NoMatch)
    else
      var date := Date(year, month.value, day.value);
      if IsValidDate(date) then Ok(date) else Err(InvalidDate)
  }

  /** The first entry of a column that does not convert: its position, its text and why. */
  datatype ParseFailure = ParseFailure(position: nat, text: string, reason: DateError)

  /**
   * The conversion of a whole column of date strings: every entry converted
   * in order, or the first entry that does not convert, which fails the
   * whole column.
   */
  function ParseDates(texts: seq<string>): (r: Result<seq<Date>, ParseFailure>)
    ensures r.Ok? <==> forall i :: 0 <= i < |texts| ==> ParseDate(texts[i]).Ok?
    ensures r.Ok? ==> |r.value| == |texts| && forall i :: 0 <= i < |texts| ==> ParseDate(texts[i]) == Ok(r.value[i])
    ensures r.Err? ==> (
      && r.error.position < |texts|
      && r.error.text == texts[r.error.position]
      && ParseDate(texts[r.error.position]) == Err(r.error.reason)
      && forall i :: 0 <= i < r.error.position ==> ParseDate(texts[i]).Ok?)
  {
    if texts == [] then Ok([])
    else
      match ParseDate(texts[0])
      case Err(reason) => Err(ParseFailure(0, texts[0], reason))
      case Ok(date) =>
        match ParseDates(texts[1..])
        case Err(f) => Err(f.(position := f.position + 1))
        case Ok(dates) => Ok([date] + dates)
  }

  /** Every abbreviation is already in the form `str.capitalize` produces. */
  lemma AbbreviationsCapitalized(k: int)
    requires 0 <= k < 12
    ensures Capitalize(MonthAbbreviations[k]) == MonthAbbreviations[k]
  {
    var a := MonthAbbreviations[k];
    assert |a| == 3 && 'A' <= a[0] <= 'Z';
    assert forall i :: 1 <= i < 3 ==> 'a' <= a[i] <= 'z';
    assert LowerAll(a[1..]) == a[1..];
  }

  /**
   * On capitalised text the case-blind month match of `%b` finds exactly
   * the abbreviation spelled that way.
   */
  lemma ParseMonthOfCapitalized(s: string)
    ensures ParseMonth(Capitalize(s)) == MonthNumber(Capitalize(s))
  {
    var c := Capitalize(s);
    var p := ParseMonth(c);
    var q := MonthNumber(c);
    if q.Some? {
      LowerOfAbbreviation(q.value - 1);
      ParseMonthOfLower(c, q.value);
    }
    if p.Some? {
      ParseMonthFound(c);
      CapitalizeIdempotent(s);
      CapitalizedAbbreviation(c, p.value - 1);
      MonthNumberOfAbbreviation(p.value);
    }
  }

  /** A capitalised string that lowers to the k-th lower-case abbreviation is the k-th abbreviation. */
  lemma CapitalizedAbbreviation(c: string, k: int)
    requires 0 <= k < 12 && Capitalize(c) == c && LowerAll(c) == LowerMonthAbbreviations[k]
    ensures c == MonthAbbreviations[k]
  {
    LowerOfAbbreviation(k);
    AbbreviationsCapitalized(k);
    CapitalizeIgnoresCase(c);
    CapitalizeIgnoresCase(MonthAbbreviations[k]);
  }

  lemma MonthNumberOfAbbreviation(m: int)
    requires 1 <= m <= 12
    ensures MonthNumber(MonthAbbreviations[m - 1]) == Some(m)
  {
    var n := MonthNumber(MonthAbbreviations[m - 1]);
    AbbreviationsDistinct(n.value - 1, m - 1);
  }

}
