/**
 * The per-cell rules of the transform: education and job cleanup, the
 * two outcome encodings, and the synthesis of the last contact date.
 */
module Rules {
  import opened Wrappers
  import opened Text
  import opened Calendar

  /** `series.replace(target, NaN)`: a cell equal to `target` as a whole becomes absent. */
  function ReplaceWithAbsent(v: Option<string>, target: string): (r: Option<string>)
    ensures r.None? <==> v.None? || v.value == target
    ensures r.Some? ==> r == v
  {
    if v == Some(target) then None else v
  }

  /**
   * `series.map(codes)`: a cell that is a key takes its code; any other
   * cell, an absent one included, becomes absent. Nothing is raised.
   */
  function MapCodes(codes: map<string, int>, v: Option<string>): (r: Option<int>)
    ensures r.Some? <==> v.Some? && v.value in codes
    ensures r.Some? ==> r.value == codes[v.value]
  {
    if v.Some? && v.value in codes then Some(codes[v.value]) else None
  }

  const CampaignOutcomeCodes: map<string, int> := map["yes" := 1, "no" := 0]
  const PreviousOutcomeCodes: map<string, int> := map["success" := 1, "failure" := 0]

  /** The education value written to the client table: dots become underscores, then "unknown" becomes absent. */
  function CleanEducation(education: string): (r: Option<string>)
    ensures r.None? <==> education == "unknown"
    ensures r.Some? ==> r.value == ReplaceChar(education, '.', '_')
  {
    var underscored := ReplaceChar(education, '.', '_');
    UnknownSurvivesReplacement(education);
    ReplaceWithAbsent(Some(underscored), "unknown")
  }

  /** Only "unknown" itself becomes "unknown" when dots turn into underscores. */
  lemma UnknownSurvivesReplacement(s: string)
    ensures ReplaceChar(s, '.', '_') == "unknown" <==> s == "unknown"
  {
    var r := ReplaceChar(s, '.', '_');
    if r == "unknown" {
      assert forall i :: 0 <= i < |s| ==> s[i] == r[i];
    } else if s == "unknown" {
      ReplaceCharNoOp(s, '.', '_');
    }
  }

  /** An education value that survives has no dot left, the same length, and every non-dot character in place. */
  lemma CleanEducationShape(education: string)
    requires CleanEducation(education).Some?
    ensures var e := CleanEducation(education).value;
      '.' !in e && |e| == |education| &&
      forall i :: 0 <= i < |e| ==> e[i] == if education[i] == '.' then '_' else education[i]
  {
  }

  /** The job value written to the client table: every dot deleted. */
  function CleanJob(job: string): (r: string)
    ensures '.' !in r
    ensures '.' !in job ==> r == job
    ensures multiset(r) == multiset(job)['.' := 0]
  {
    DeleteCharNoOp(job, '.');
    DeleteChar(job, '.')
  }

  /** Cleaning a job value a second time changes nothing. */
  lemma CleanJobIdempotent(job: string)
    ensures CleanJob(CleanJob(job)) == CleanJob(job)
  {
    DeleteCharIdempotent(job, '.');
  }

  /** A worked case: "admin." loses its trailing dot. */
  lemma AdminJob()
    ensures CleanJob("admin.") == "admin"
  {
    var name := "admin";
    assert '.' !in name;
    assert "admin." == name + ['.'];
    TrailingDotDeleted(name);
  }

  lemma TrailingDotDeleted(job: string)
    requires '.' !in job
    ensures CleanJob(job + ['.']) == job
  {
    DeleteCharAppend(job, ['.'], '.');
    DeleteCharNoOp(job, '.');
    assert DeleteChar(['.'], '.') == [];
  }

  /** `campaign_outcome`: "yes" is 1, "no" is 0, anything else is absent. */
  function CampaignOutcome(y: string): (r: Option<int>)
    ensures r == Some(1) <==> y == "yes"
    ensures r == Some(0) <==> y == "no"
    ensures r.None? <==> y != "yes" && y != "no"
  {
    MapCodes(CampaignOutcomeCodes, Some(y))
  }

  /**
   * `previous_outcome`: "nonexistent" first becomes absent, then "success"
   * is 1, "failure" is 0 and anything else, absent included, is absent.
   */
  function PreviousOutcome(poutcome: string): (r: Option<int>)
    ensures r == Some(1) <==> poutcome == "success"
    ensures r == Some(0) <==> poutcome == "failure"
    ensures r.None? <==> poutcome != "success" && poutcome != "failure"
    ensures poutcome == "nonexistent" ==> r.None?
  {
    MapCodes(PreviousOutcomeCodes, ReplaceWithAbsent(Some(poutcome), "nonexistent"))
  }

  /** The year every contact date is put in. */
  const Year: string := "2022"

  /** `year + "-" + month.capitalize() + "-" + str(day)`. */
  function ContactDateText(month: string, day: int): string
  {
    Year + "-" + Capitalize(month) + "-" + DecimalString(day)
  }

  /** `last_contact_date`: the text above parsed as `%Y-%b-%d`. */
  function LastContactDate(month: string, day: int): Result<Date, DateError>
  {
    ParseDate(ContactDateText(month, day))
  }

  /**
   * The contact date is a date in 2022 exactly when the capitalised month
   * is one of the twelve abbreviations and the day lies in that month. An
   * unknown month or a day outside 1..31 does not match the format; a day
   * past the end of a known month matches it but names no date.
   */
  lemma LastContactDateCases(month: string, day: int)
    ensures var m := MonthNumber(Capitalize(month));
      var r := LastContactDate(month, day);
      && (r.Ok? <==> m.Some? && 1 <= day <= DaysInMonth(2022, m.value))
      && (r.Ok? ==> r.value == Date(2022, m.value, day))
      && (r == Err(InvalidDate) <==> m.Some? && DaysInMonth(2022, m.value) < day <= 31)
      && (r == Err(NoMatch) <==> m.None? || day < 1 || 31 < day)
  {
    CapitalizeIgnoresCase(month);
    if |Capitalize(month)| == 3 {
      ThreeLetterMonth(month, day);
    } else {
      OtherMonth(month, day);
    }
  }

  lemma YearValue()
    ensures AllDigits(Year) && DigitsValue(Year) == 2022
  {
    assert Year[..3] == "202" && "202"[..2] == "20" && "20"[..1] == "2" && "2"[..0] == [];
  }

  /** With a three-letter month the text splits into its fields at fixed places. */
  lemma ThreeLetterMonth(month: string, day: int)
    requires |Capitalize(month)| == 3
    ensures var m := MonthNumber(Capitalize(month));
      var r := ParseDate(ContactDateText(month, day));
      && (r.Ok? <==> m.Some? && 1 <= day <= DaysInMonth(2022, m.value))
      && (r.Ok? ==> r.value == Date(2022, m.value, day))
      && (r == Err(InvalidDate) <==> m.Some? && DaysInMonth(2022, m.value) < day <= 31)
      && (r == Err(NoMatch) <==> m.None? || day < 1 || 31 < day)
  {
    ContactDateParse(month, day);
    ParseMonthOfCapitalized(month);
    ParseDayOfDecimal(day);
    FieldsToContactDate(MonthNumber(Capitalize(month)), ParseDay(DecimalString(day)), day);
  }

  /** The outcome of building a 2022 date from a month number, if any, and a day read from `str(day)`. */
  lemma FieldsToContactDate(m: Option<int>, parsedDay: Option<int>, day: int)
    requires m.Some? ==> 1 <= m.value <= 12
    requires parsedDay == if 1 <= day <= 31 then Some(day) else None
    ensures var r := FieldsToDate(2022, m, parsedDay);
      && (r.Ok? <==> m.Some? && 1 <= day <= DaysInMonth(2022, m.value))
      && (r.Ok? ==> r.value == Date(2022, m.value, day))
      && (r == Err(InvalidDate) <==> m.Some? && DaysInMonth(2022, m.value) < day <= 31)
      && (r == Err(NoMatch) <==> m.None? || day < 1 || 31 < day)
  {
  }

  /** With a three-letter month the text matches the pattern and its fields are read in place. */
  lemma ContactDateParse(month: string, day: int)
    requires |Capitalize(month)| == 3
    ensures ParseDate(ContactDateText(month, day)) ==
      FieldsToDate(2022, ParseMonth(Capitalize(month)), ParseDay(DecimalString(day)))
  {
    ContactDateFields(month, day);
    YearValue();
  }

  /** Where each field of the text lies when the month has three letters. */
  lemma ContactDateFields(month: string, day: int)
    requires |Capitalize(month)| == 3
    ensures var s := ContactDateText(month, day);
      && |s| >= 10 && s[..4] == Year && s[4] == '-' && s[8] == '-'
      && s[5..8] == Capitalize(month) && s[9..] == DecimalString(day)
  {
    var s := ContactDateText(month, day);
    assert s[..4] == Year;
    assert s[5..8] == Capitalize(month);
    assert s[9..] == DecimalString(day);
  }

  /** With a month of any other length the text never matches the format. */
  lemma OtherMonth(month: string, day: int)
    requires |Capitalize(month)| != 3
    ensures MonthNumber(Capitalize(month)).None?
    ensures ParseDate(ContactDateText(month, day)) == Err(NoMatch)
  {
    var c := Capitalize(month);
    var m := MonthNumber(c);
    if m.Some? {
      AbbreviationLength(m.value - 1);
    }
    var s := ContactDateText(month, day);
    Separators(month, day);
    if |s| >= 10 && s[8] == '-' {
      if |c| < 3 {
        assert s[5..8][|c|] == '-';
        DashIsNoMonth(s[5..8], |c|);
      } else {
        assert s[9..][|c| - 4] == '-';
        DashIsNoDay(s[9..], |c| - 4);
      }
    }
  }

  /** The two dashes of the text surround the month field, whatever its length. */
  lemma Separators(month: string, day: int)
    ensures var s := ContactDateText(month, day);
      && |s| == 6 + |month| + |DecimalString(day)|
      && s[4] == '-' && s[5 + |month|] == '-'
  {
    CapitalizeIgnoresCase(month);
  }

  lemma AbbreviationLength(k: int)
    requires 0 <= k < 12
    ensures |MonthAbbreviations[k]| == 3
  {
  }

  /** No day field contains a dash. */
  lemma DashIsNoDay(field: string, i: int)
    requires 0 <= i < |field| && field[i] == '-'
    ensures ParseDay(field).None?
  {
  }

  /** No month abbreviation contains a dash. */
  lemma DashIsNoMonth(field: string, i: int)
    requires 0 <= i < |field| && field[i] == '-'
    ensures ParseMonth(field).None?
  {
    var l := LowerAll(field);
    assert l[i] == '-';
    if |l| == 3 {
      assert l[0] == '-' || l[1] == '-' || l[2] == '-';
    }
  }

  /** A worked case: month "may" and day 13 give 13 May 2022. */
  lemma MayThirteenth()
    ensures LastContactDate("may", 13) == Ok(Date(2022, 5, 13))
  {
    MonthOf("may", "May", 5);
    LastContactDateCases("may", 13);
  }

  /** A worked case: month "apr" and day 31 give no date, April having 30 days. */
  lemma ThirtyFirstOfApril()
    ensures LastContactDate("apr", 31) == Err(InvalidDate)
  {
    MonthOf("apr", "Apr", 4);
    LastContactDateCases("apr", 31);
  }

  lemma MonthOf(month: string, abbreviation: string, m: int)
    requires 1 <= m <= 12 && abbreviation == MonthAbbreviations[m - 1]
    requires |month| == 3 && Upper(month[0]) == abbreviation[0]
    requires Lower(month[1]) == abbreviation[1] && Lower(month[2]) == abbreviation[2]
    ensures MonthNumber(Capitalize(month)) == Some(m)
  {
    var c := Capitalize(month);
    assert |c| == 3 && c[0] == abbreviation[0] && c[1] == abbreviation[1] && c[2] == abbreviation[2];
    assert c == abbreviation;
    MonthNumberOfAbbreviation(m);
  }

}
