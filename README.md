# Bank marketing split, modelled in Dafny

`bank_marketing.py` reads one bank marketing table and splits it into three
tables: client, campaign and economics. Along the way it cleans and encodes
some cells:

- education: dots become underscores, then "unknown" becomes absent;
- job: dots are deleted;
- the two outcome columns become 1, 0 or absent;
- campaign_id is the constant 1;
- the last contact date is built from the month, the day and the year 2022,
  then read with the format `%Y-%b-%d`.

Each table's columns are renamed and pruned. This project models that
transform and proves what it does.

Modules:

- `Wrappers`: `Option` (a NaN cell is `None`) and `Result`.
- `Text`: the one-cell string operations.
  - `str.replace` with a one-character literal pattern, as a replacement
    (`ReplaceChar`) and as a deletion (`DeleteChar`).
  - `str.capitalize`: the first character upper-cased, the rest lower-cased.
  - `astype(str)` on an integer (`DecimalString`).
- `Calendar`: Gregorian dates and `pd.to_datetime(..., format="%Y-%b-%d")`.
  - The text must match the pattern as a whole: a four-digit year, a dash, a
    month abbreviation in any letter case, a dash, and a day. The day is
    1 to 31 in one or two digits, or one digit after a space. A mismatch is
    `NoMatch`.
  - The matched fields must name a real day; otherwise the result is
    `InvalidDate`.
  - A whole column converts only if every entry does. Otherwise the first
    entry that fails is reported.
- `Columns`: the data-frame column operations, on a frame's list of labels.
  - `frame[names]` raises a KeyError listing every missing name.
  - `rename` ignores keys that are not columns.
  - An assignment to an existing column keeps its place; a new column is
    appended last.
  - `drop` raises a KeyError if a name is not a column.
- `Schema`: the source and output column labels. It proves that the script's
  renames, assignments and drop leave each output with exactly its header.
- `Rules`: the per-cell rules (education, job, the outcomes, the contact
  date).
- `BankMarketing`: source rows and output rows, the three tables, and `Run`,
  the whole script from a header and rows to three tables or an error.

Two behaviours of the script worth stating:

- `str.capitalize` lower-cases every character after the first; it does not
  leave them unchanged. So "MAY" becomes "May" and still matches.
- `Series.map(dict)` sends a value that is not a key to NaN and raises
  nothing. An unexpected `y` or `poutcome` therefore gives an absent
  outcome, not a failed run.

The only row-level step that can fail a run is the date conversion. The
other failure is a missing source column, which makes the selection raise a
KeyError.

## Model

| member | source | states |
|---|---|---|
| Columns.Select | bank_marketing.py:12-17 | Selecting succeeds iff every name is a column; it gives the names in the order asked for; otherwise the error lists exactly the missing names |
| Columns.SelectPresent | bank_marketing.py:12-17 | When all names are present, the selection is exactly those names |
| Columns.MissingMembers | bank_marketing.py:12-17 | The KeyError list holds exactly the asked names that are not columns |
| Columns.Missing | bank_marketing.py:12-17 | The names a selection lacks, in the order asked for; specified by `Columns.MissingMembers` |
| Columns.Rename | bank_marketing.py:20-33 | The length is kept; each column that is a key takes its new name in place; every other column is unchanged |
| Columns.Assign | bank_marketing.py:36-66 | The assigned column is present afterwards; an existing column leaves the list unchanged; a new one is appended at the end |
| Columns.Drop | bank_marketing.py:73 | The drop succeeds iff every name is a column; the result holds exactly the columns not named; otherwise the error lists exactly the absent names |
| Columns.WithoutMembers | bank_marketing.py:73 | After dropping, a label is present iff it was a column and was not named |
| Columns.Without | bank_marketing.py:73 | The columns a drop keeps, in their order; specified by `Columns.WithoutMembers`, `Columns.WithoutAppend`, `Columns.WithoutKeep` and `Columns.WithoutSkip` |
| Columns.WithoutAppend | bank_marketing.py:73 | Dropping distributes over concatenation, so the kept columns keep their order |
| Columns.WithoutKeep | bank_marketing.py:73 | A column that is not named stays, in front of what is kept after it |
| Columns.WithoutSkip | bank_marketing.py:73 | A named column is removed |
| Columns.WithoutNone | bank_marketing.py:73 | Dropping names that are not columns changes nothing |
| Text.ReplaceChar | bank_marketing.py:36 | The length is kept; each target character becomes the replacement; every other character stays in place; no target is left |
| Text.ReplaceCharNoOp | bank_marketing.py:36 | Replacement leaves a string unchanged iff the string has no target |
| Text.DeleteChar | bank_marketing.py:40 | No deleted character is left; the multiset of the others is unchanged |
| Text.DeleteCharAppend | bank_marketing.py:40 | Deletion distributes over concatenation, so the remaining characters keep their order |
| Text.DeleteCharNoOp | bank_marketing.py:40 | Deletion leaves a string unchanged iff the string does not contain the character |
| Text.DeleteCharIdempotent | bank_marketing.py:40 | Deleting twice is the same as deleting once |
| Text.Capitalize | bank_marketing.py:57 | `str.capitalize`: first character upper-cased, the rest lower-cased; specified by `Text.CapitalizeIgnoresCase` and `Text.CapitalizeIdempotent` |
| Text.CapitalizeIgnoresCase | bank_marketing.py:57 | Capitalising keeps the length, ignores the input's letter case, and keeps the lower-cased letters |
| Text.CapitalizeIdempotent | bank_marketing.py:57 | Capitalising twice is the same as capitalising once |
| Text.NatString | bank_marketing.py:63 | `str(n)` of n >= 0 is a non-empty digit string with no leading zero; its length is 1 below 10, 2 below 100, and at least 3 otherwise |
| Text.NatStringRoundTrip | bank_marketing.py:63 | Reading the digits of `str(n)` back gives n |
| Text.DecimalString | bank_marketing.py:63 | `str(n)` starts with a minus sign iff n < 0; for n >= 0 its digits read back as n |
| Rules.ReplaceWithAbsent | bank_marketing.py:37 | The cell becomes absent iff it is absent or equals the target; otherwise it is unchanged |
| Rules.MapCodes | bank_marketing.py:43-50 | The result is present iff the cell is present and is a key, and then it is that key's code; an absent cell stays absent |
| Rules.CleanEducation | bank_marketing.py:36-37 | The value becomes absent iff it is exactly "unknown"; otherwise it is the dot-to-underscore replacement |
| Rules.UnknownSurvivesReplacement | bank_marketing.py:36-37 | The replacement yields "unknown" iff the input was "unknown", so the order of the two steps does not matter |
| Rules.CleanEducationShape | bank_marketing.py:36-37 | A kept education value has no dot and the same length; each dot became `_`; every other character is in place |
| Rules.CleanJob | bank_marketing.py:40 | No dot is left; a dot-free value is unchanged; the other characters are kept as a multiset |
| Rules.CleanJobIdempotent | bank_marketing.py:40 | Cleaning a job twice is the same as cleaning it once |
| Rules.TrailingDotDeleted | bank_marketing.py:40 | A dot-free job followed by one dot cleans to the job itself |
| Rules.AdminJob | bank_marketing.py:40 | "admin." becomes "admin" |
| Rules.CampaignOutcome | bank_marketing.py:43-44 | "yes" gives 1 and "no" gives 0, each iff; anything else is absent |
| Rules.PreviousOutcome | bank_marketing.py:47-50 | "success" gives 1 and "failure" gives 0, each iff; anything else is absent, "nonexistent" included |
| Rules.ContactDateText | bank_marketing.py:60-66 | The text `year-Month-day` built for a row; specified by `Rules.ContactDateFields` and `Rules.Separators` |
| Rules.LastContactDate | bank_marketing.py:57-70 | The row's contact date as `to_datetime` reads the built text; specified by `Rules.LastContactDateCases` |
| Rules.LastContactDateCases | bank_marketing.py:57-70 | The date is Ok(2022, m, d) iff the capitalised month is abbreviation m and 1 <= d <= DaysInMonth(2022, m); InvalidDate iff the month is known and the day is past the month's end but at most 31; NoMatch otherwise |
| Rules.ThreeLetterMonth | bank_marketing.py:57-70 | The same characterisation when the capitalised month has three letters |
| Rules.OtherMonth | bank_marketing.py:57-70 | A month of any other length is no abbreviation and the text never matches |
| Rules.ContactDateParse | bank_marketing.py:60-70 | With a three-letter month, parsing the text is reading year 2022, the month field and the day field |
| Rules.ContactDateFields | bank_marketing.py:60-66 | With a three-letter month, the built text has "2022", the month and `str(day)` at fixed places between two dashes |
| Rules.Separators | bank_marketing.py:66 | The built text has dashes right after the year and right after the month, whatever the month's length |
| Rules.FieldsToContactDate | bank_marketing.py:69-70 | The four-way outcome of building a 2022 date from a month number, if any, and a day read from `str(day)` |
| Rules.YearValue | bank_marketing.py:60 | "2022" is all digits and reads as 2022 |
| Rules.AbbreviationLength | bank_marketing.py:69-70 | Every month abbreviation has three letters |
| Rules.DashIsNoDay | bank_marketing.py:69-70 | A field with a dash is not a day |
| Rules.DashIsNoMonth | bank_marketing.py:69-70 | A field with a dash is not a month |
| Rules.MonthOf | bank_marketing.py:57-70 | A three-letter month whose capitalised letters spell abbreviation m is month m |
| Rules.MayThirteenth | bank_marketing.py:57-70 | Month "may" and day 13 give 13 May 2022 |
| Rules.ThirtyFirstOfApril | bank_marketing.py:57-70 | Month "apr" and day 31 give InvalidDate |
| Calendar.DaysInMonth | bank_marketing.py:69-70 | A month has 28 to 31 days; 31 iff it is one of the seven long months; 30 iff it is one of the four short ones; February has 29 iff the year is a leap year |
| Calendar.IndexIn | bank_marketing.py:69-70 | The lookup finds a name iff it is in the table; the position found holds the name, and no earlier position does |
| Calendar.MonthNumber | bank_marketing.py:69-70 | An exactly spelled abbreviation gives its month number from 1 to 12, and only an abbreviation gives one |
| Calendar.AbbreviationsDistinct | bank_marketing.py:69-70 | No two months share an abbreviation |
| Calendar.MonthNumberOfAbbreviation | bank_marketing.py:69-70 | Abbreviation m is month m |
| Calendar.LowerOfAbbreviation | bank_marketing.py:69-70 | Lower-casing abbreviation k gives the k-th lower-case abbreviation |
| Calendar.ParseMonthFound | bank_marketing.py:69-70 | A month read by `%b` is 1 to 12, and the field lower-cased is that month's abbreviation |
| Calendar.ParseMonthOfLower | bank_marketing.py:69-70 | A field that lower-cases to abbreviation k reads as month k |
| Calendar.ParseMonth | bank_marketing.py:69-70 | `%b`: the field compared with the twelve abbreviations without regard to case; specified by `Calendar.ParseMonthFound`, `Calendar.ParseMonthOfLower` and `Calendar.ParseMonthOfCapitalized` |
| Calendar.AbbreviationsCapitalized | bank_marketing.py:57-70 | Every abbreviation is already in capitalised form |
| Calendar.ParseMonthOfCapitalized | bank_marketing.py:57-70 | On capitalised text, the case-blind `%b` match agrees with the exact abbreviation lookup |
| Calendar.CapitalizedAbbreviation | bank_marketing.py:57-70 | A capitalised string that lower-cases to abbreviation k is abbreviation k |
| Calendar.ParseDay | bank_marketing.py:69-70 | A day read by `%d` lies in 1..31 and comes from one or two digits or spaces |
| Calendar.ParseDayOfDecimal | bank_marketing.py:63-70 | `%d` accepts `str(d)` exactly when 1 <= d <= 31, and reads it back as d |
| Calendar.ParseDate | bank_marketing.py:69-70 | Every date the parse accepts is a valid calendar date |
| Calendar.FieldsToDate | bank_marketing.py:69-70 | Every date built from the fields is a valid calendar date |
| Calendar.ParseDates | bank_marketing.py:69-70 | The column converts iff every entry does, giving each entry's date in order; otherwise it reports the first failing entry, its text and its reason |
| Schema.ClientOutputColumns | bank_marketing.py:12-40 | The client frame's columns end as the client header |
| Schema.EconomicsOutputColumns | bank_marketing.py:16-33 | The economics frame's columns end as the economics header |
| Schema.ClientColumns | bank_marketing.py:20-40 | The client frame's columns after the rename and the three assignments; specified by `Schema.ClientOutputColumns` |
| Schema.EconomicsColumns | bank_marketing.py:31-33 | The economics frame's columns after the rename; specified by `Schema.EconomicsOutputColumns` |
| Schema.StampColumns | bank_marketing.py:43-54 | The outcome reassignments and the campaign_id column; specified by `Schema.OutcomesAndIdAssigned` |
| Schema.DateColumns | bank_marketing.py:57-70 | The month, year, day and last_contact_date assignments; specified by `Schema.DatePartsAssigned` |
| Schema.CampaignDated | bank_marketing.py:23-70 | The campaign frame's columns before the drop; specified by `Schema.CampaignDatedOf` and `Schema.CampaignDatedColumns` |
| Schema.CampaignColumns | bank_marketing.py:23-73 | The campaign frame's columns after the drop; specified by `Schema.CampaignOutputColumns` |
| Schema.CampaignOutputColumns | bank_marketing.py:14-73 | The campaign frame's columns end as exactly client_id, number_contacts, contact_duration, pdays, previous_campaign_contacts, previous_outcome, campaign_outcome, campaign_id, last_contact_date; none of month, day and year is among them |
| Schema.CampaignRenamed | bank_marketing.py:23-28 | After the renames, each campaign column has its new name in its old place |
| Schema.RenamedCampaignLabels | bank_marketing.py:23-28 | The renamed campaign frame has both outcome columns, month and day, and no campaign_id, year or last_contact_date |
| Schema.OutcomesAndIdAssigned | bank_marketing.py:43-54 | Reassigning the outcomes keeps the columns; campaign_id is appended |
| Schema.DatePartsAssigned | bank_marketing.py:57-70 | Reassigning month and day keeps the columns; year and then last_contact_date are appended |
| Schema.CampaignDatedOf | bank_marketing.py:23-70 | Before the drop, the campaign columns are the renamed ones followed by campaign_id, year and last_contact_date |
| Schema.CampaignDatedColumns | bank_marketing.py:23-70 | The same list, for the source selection |
| Schema.CampaignDropAccepted | bank_marketing.py:73 | The drop of month, day and year raises nothing |
| Schema.CampaignDropResult | bank_marketing.py:73 | The drop leaves the campaign header |
| Schema.CampaignPruned | bank_marketing.py:73 | Dropping the three named entries of a twelve-column list keeps the other nine in order |
| BankMarketing.ClientTable | bank_marketing.py:12-40 | One client row per source row, in order; each row's id is its source row's client_id |
| BankMarketing.EconomicsTable | bank_marketing.py:16-33 | One economics row per source row, in order, with the same client_id |
| BankMarketing.ToClient | bank_marketing.py:20-40 | One client row: id from client_id, job and education cleaned, the rest passed through; specified by `BankMarketing.ClientTable` and the `Rules` lemmas |
| BankMarketing.ToEconomics | bank_marketing.py:16-33 | One economics row, every value passed through; specified by `BankMarketing.EconomicsTable` |
| BankMarketing.ToCampaign | bank_marketing.py:14-70 | One campaign row with its encoded outcomes, campaign_id 1 and its date; specified by `BankMarketing.CampaignTableRows` |
| BankMarketing.ContactDateTexts | bank_marketing.py:66 | One date text per row, in order, each built from that row's month and day |
| BankMarketing.CampaignRows | bank_marketing.py:14-54 | One campaign row per source row and date, in order |
| BankMarketing.ContactDateOfRow | bank_marketing.py:66-70 | Converting the i-th text of the column is converting row i's contact date |
| BankMarketing.CampaignTable | bank_marketing.py:66-70 | The campaign table, or the first row whose date fails; specified by `BankMarketing.CampaignTableOk`, `BankMarketing.CampaignTableRows` and `BankMarketing.CampaignTableError` |
| BankMarketing.CampaignTableOk | bank_marketing.py:69-70 | The campaign table exists iff every row's contact date converts |
| BankMarketing.CampaignTableRows | bank_marketing.py:14-70 | A campaign table has one row per source row, in order, with the source's client_id, counts and durations, the two encoded outcomes, campaign_id 1 and the row's converted date |
| BankMarketing.CampaignTableError | bank_marketing.py:69-70 | A failed campaign table names the first row whose date does not convert, with its text and its reason; every earlier row converts |
| BankMarketing.RunWithSourceColumns | bank_marketing.py:12-73 | With every source column present, the run gives the three fixed headers, or the campaign table's error |
| BankMarketing.RunMissingColumns | bank_marketing.py:12-17 | With a source column missing, the run fails with a KeyError; the list is non-empty and holds only labels absent from the file |
| BankMarketing.Run | bank_marketing.py:12-73 | The whole script from a header and rows to three tables or an error; specified by `BankMarketing.RunFailure`, `BankMarketing.RunWithSourceColumns`, `BankMarketing.RunMissingColumns` and `BankMarketing.RunOutput` |
| BankMarketing.RunFailure | bank_marketing.py:12-73 | A run succeeds iff every source column is present and every contact date converts; with the columns present, its error is the campaign table's |
| BankMarketing.RunOutput | bank_marketing.py:12-73 | With every source column present and every contact date converting, the run succeeds, with the three headers and three tables as long as the source, in its order; every row carries its source row's client_id; every campaign row has campaign_id 1 |
| BankMarketing.CampaignOutcomeNeverAbsent | bank_marketing.py:43-44 | In a run with every source column present, every contact date converting and every `y` "yes" or "no", campaign_outcome is never absent, and it is 1 exactly for "yes" |

## Left out

- Reading `bank_marketing.csv` and writing the three output files (lines 6 and 76-78) is file I/O. `Run` takes the header and the parsed rows as parameters and returns the tables.
- Output text formatting is not modelled, for example an integer column printed as `1.0` once it holds NaN.
- The `CREATE TABLE` and `\copy` strings (lines 81-119) are constant text the script builds but never uses.
- The economics values are floats that are only passed through. They are kept as opaque 64-bit patterns; no float arithmetic is modelled.
- pandas internals are not modelled: column dtypes, NaN as a float sentinel, and the copy-versus-view behaviour of `inplace=True` on a column slice. Each renamed frame is treated as the script intends.
- `str.replace(".", ...)` is modelled as a literal one-character replacement. pandas versions that read the pattern as a regular expression would match every character.
- Letter case is ASCII only. Locale-specific month names and Unicode case mapping are not modelled. `%b` is modelled by the twelve English abbreviations compared without regard to case.
- Only ASCII digits count as digits in `%Y` and `%d`.
- The range of years a pandas timestamp can hold is not modelled. Every date here is in 2022.
- Source files with duplicate column labels are not modelled; a source label is a `Column` value, and `Other` stands for any other label.
- Missing CSV cells (NaN) are outside the model: `SourceRow` has no absent month, day, education, job, `y` or `poutcome`. In the script a single NaN `day` makes the column float, so `astype(str)` gives texts such as "13.0" and every date fails. A NaN `month` reaches `to_datetime` as NaN and gives NaT rather than an error.
- Type coercion of the CSV fields is not modelled: `age`, `campaign`, `day` and the other integer columns arrive as integers. The other cells are strings such as `credit_default`, which are passed through.
- Rules.PreviousOutcome: the source column is never absent on input, so the function takes a string. The absent-stays-absent case is stated on `Rules.MapCodes`.
