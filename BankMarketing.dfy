/**
 * The split of the bank marketing table into a client table, a campaign
 * table and an economics table. Every output table is a row-by-row image
 * of the source table; each output's column list is computed by the same
 * column operations the script applies to its data frame.
 */
module BankMarketing {
  import opened Wrappers
  import opened Text
  import opened Calendar
  import opened Columns
  import opened Rules
  import opened Schema

  /** A double-precision value, kept as its 64-bit pattern and passed through untouched. */
  datatype Float = Float(bits: bv64)

  /** One row of the source file, one field per column of its header. */
  datatype SourceRow = SourceRow(
    client_id: int, age: int, job: string, marital: string, education: string,
    credit_default: string, housing: string, loan: string,
    campaign: int, month: string, day: int, duration: int, pdays: int, previous: int,
    poutcome: string, y: string,
    emp_var_rate: Float, cons_price_idx: Float, euribor3m: Float, nr_employed: Float)

  datatype ClientRow = ClientRow(
    id: int, age: int, job: string, marital: string, education: Option<string>,
    credit_default: string, housing: string, loan: string)

  datatype CampaignRow = CampaignRow(
    client_id: int, number_contacts: int, contact_duration: int, pdays: int,
    previous_campaign_contacts: int, previous_outcome: Option<int>, campaign_outcome: Option<int>,
    campaign_id: int, last_contact_date: Date)

  datatype EconomicsRow = EconomicsRow(
    client_id: int, emp_var_rate: Float, cons_price_idx: Float,
    euribor_three_months: Float, number_employed: Float)

  /** The three tables the run produces, with their column lists. */
  datatype Tables = Tables(
    clientColumns: seq<Column>, client: seq<ClientRow>,
    campaignColumns: seq<Column>, campaign: seq<CampaignRow>,
    economicsColumns: seq<Column>, economics: seq<EconomicsRow>)

  datatype PipelineError =
    | MissingColumns(names: seq<Column>)     // a KeyError from selecting or dropping columns
    | BadContactDate(failure: ParseFailure)  // the first row whose contact date does not convert

  // Row transforms.

  function ToClient(src: SourceRow): ClientRow
  {
    ClientRow(src.client_id, src.age, CleanJob(src.job), src.marital, CleanEducation(src.education),
              src.credit_default, src.housing, src.loan)
  }

  function ToEconomics(src: SourceRow): EconomicsRow
  {
    EconomicsRow(src.client_id, src.emp_var_rate, src.cons_price_idx, src.euribor3m, src.nr_employed)
  }

  /** The campaign row of a source row whose contact date is `date`; campaign_id is 1 for every row. */
  function ToCampaign(src: SourceRow, date: Date): CampaignRow
  {
    CampaignRow(src.client_id, src.campaign, src.duration, src.pdays, src.previous,
                PreviousOutcome(src.poutcome), CampaignOutcome(src.y), 1, date)
  }

  /** The client table: one row per source row, in order. */
  function ClientTable(rows: seq<SourceRow>): (r: seq<ClientRow>)
    ensures |r| == |rows|
    ensures forall i :: 0 <= i < |rows| ==> r[i] == ToClient(rows[i]) && r[i].id == rows[i].client_id
  {
    seq(|rows|, i requires 0 <= i < |rows| => ToClient(rows[i]))
  }

  /** The economics table: one row per source row, in order. */
  function EconomicsTable(rows: seq<SourceRow>): (r: seq<EconomicsRow>)
    ensures |r| == |rows|
    ensures forall i :: 0 <= i < |rows| ==> r[i] == ToEconomics(rows[i]) && r[i].client_id == rows[i].client_id
  {
    seq(|rows|, i requires 0 <= i < |rows| => ToEconomics(rows[i]))
  }

  predicate DateParses(src: SourceRow)
  {
    LastContactDate(src.month, src.day).Ok?
  }

  /** The last_contact_date column before conversion: one text per row, in order. */
  function ContactDateTexts(rows: seq<SourceRow>): (r: seq<string>)
    ensures |r| == |rows|
    ensures forall i :: 0 <= i < |rows| ==> r[i] == ContactDateText(rows[i].month, rows[i].day)
  {
    seq(|rows|, i requires 0 <= i < |rows| => ContactDateText(rows[i].month, rows[i].day))
  }

  /** The campaign rows of the source rows, given the converted date of each. */
  function CampaignRows(rows: seq<SourceRow>, dates: seq<Date>): (r: seq<CampaignRow>)
    requires |dates| == |rows|
    ensures |r| == |rows|
    ensures forall i :: 0 <= i < |rows| ==> r[i] == ToCampaign(rows[i], dates[i])
  {
    seq(|rows|, i requires 0 <= i < |rows| => ToCampaign(rows[i], dates[i]))
  }

  /**
   * The campaign table: the date column converted as a whole, then one
   * campaign row per source row. The first row whose date does not convert
   * fails the table.
   */
  function CampaignTable(rows: seq<SourceRow>): Result<seq<CampaignRow>, PipelineError>
  {
    match ParseDates(ContactDateTexts(rows))
    case Err(failure) => Err(BadContactDate(failure))
    case Ok(dates) => Ok(CampaignRows(rows, dates))
  }

  /** Converting the i-th text of the column is converting that row's contact date. */
  lemma ContactDateOfRow(rows: seq<SourceRow>, i: int)
    requires 0 <= i < |rows|
    ensures ParseDate(ContactDateTexts(rows)[i]) == LastContactDate(rows[i].month, rows[i].day)
  {
  }

  /** The campaign table exists exactly when every row's contact date converts. */
  lemma CampaignTableOk(rows: seq<SourceRow>)
    ensures CampaignTable(rows).Ok? <==> forall i :: 0 <= i < |rows| ==> DateParses(rows[i])
  {
    forall i | 0 <= i < |rows| {
      ContactDateOfRow(rows, i);
    }
  }

  /**
   * A campaign table has one row per source row, in order, carrying the
   * row's client_id, its two encoded outcomes, campaign_id 1 and its
   * converted contact date.
   */
  lemma CampaignTableRows(rows: seq<SourceRow>)
    requires CampaignTable(rows).Ok?
    ensures var t := CampaignTable(rows).value;
      && |t| == |rows|
      && forall i :: 0 <= i < |rows| ==>
           && t[i].client_id == rows[i].client_id
           && t[i].campaign_id == 1
           && t[i].number_contacts == rows[i].campaign
           && t[i].contact_duration == rows[i].duration
           && t[i].pdays == rows[i].pdays
           && t[i].previous_campaign_contacts == rows[i].previous
           && t[i].campaign_outcome == CampaignOutcome(rows[i].y)
           && t[i].previous_outcome == PreviousOutcome(rows[i].poutcome)
           && LastContactDate(rows[i].month, rows[i].day) == Ok(t[i].last_contact_date)
  {
    forall i | 0 <= i < |rows| {
      ContactDateOfRow(rows, i);
    }
  }

  /** A campaign table that fails names the first row whose contact date does not convert, and why. */
  lemma CampaignTableError(rows: seq<SourceRow>)
    requires CampaignTable(rows).Err?
    ensures var e := CampaignTable(rows).error;
      && e.BadContactDate?
      && var p := e.failure.position;
      && p < |rows|
      && e.failure.text == ContactDateText(rows[p].month, rows[p].day)
      && LastContactDate(rows[p].month, rows[p].day) == Err(e.failure.reason)
      && forall i :: 0 <= i < p ==> DateParses(rows[i])
  {
    forall i | 0 <= i < |rows| {
      ContactDateOfRow(rows, i);
    }
  }

  /** Every required source column that `header` lacks, in the order the script asks for them. */
  function MissingSourceColumns(header: seq<Column>): seq<Column>
  {
    match Select(header, ClientSourceColumns)
    case Err(absent) => absent
    case Ok(_) =>
      match Select(header, CampaignSourceColumns)
      case Err(absent) => absent
      case Ok(_) =>
        match Select(header, EconomicsSourceColumns)
        case Err(absent) => absent
        case Ok(_) => []
  }

  /**
   * The whole run on a source file with column labels `header` and rows
   * `rows`: the three projections, then the client, campaign and economics
   * transforms. A failure anywhere means no table at all.
   */
  function Run(header: seq<Column>, rows: seq<SourceRow>): Result<Tables, PipelineError>
  {
    match Select(header, ClientSourceColumns)
    case Err(absent) => Err(MissingColumns(absent))
    case Ok(clientSelected) =>
      match Select(header, CampaignSourceColumns)
      case Err(absent) => Err(MissingColumns(absent))
      case Ok(campaignSelected) =>
        match Select(header, EconomicsSourceColumns)
        case Err(absent) => Err(MissingColumns(absent))
        case Ok(economicsSelected) =>
          match CampaignTable(rows)
          case Err(e) => Err(e)
          case Ok(campaignRows) =>
            match CampaignColumns(campaignSelected)
            case Err(absent) => Err(MissingColumns(absent))
            case Ok(campaignColumns) =>
              Ok(Tables(ClientColumns(clientSelected), ClientTable(rows),
                        campaignColumns, campaignRows,
                        EconomicsColumns(economicsSelected), EconomicsTable(rows)))
  }

  /** The source file has every column the three projections ask for. */
  predicate HasSourceColumns(header: seq<Column>)
  {
    && (forall n :: n in ClientSourceColumns ==> n in header)
    && (forall n :: n in CampaignSourceColumns ==> n in header)
    && (forall n :: n in EconomicsSourceColumns ==> n in header)
  }

  /** With every source column present, the run is the campaign table's outcome with the three fixed headers. */
  lemma RunWithSourceColumns(header: seq<Column>, rows: seq<SourceRow>)
    requires HasSourceColumns(header)
    ensures Run(header, rows) ==
      match CampaignTable(rows)
      case Err(e) => Err(e)
      case Ok(campaignRows) =>
        Ok(Tables(ClientHeader, ClientTable(rows), CampaignHeader, campaignRows,
                  EconomicsHeader, EconomicsTable(rows)))
  {
    SelectPresent(header, ClientSourceColumns);
    SelectPresent(header, CampaignSourceColumns);
    SelectPresent(header, EconomicsSourceColumns);
    ClientOutputColumns();
    CampaignOutputColumns();
    EconomicsOutputColumns();
  }

  /**
   * Without some source column the run stops with a KeyError naming the
   * columns missing from the first projection that lacks any.
   */
  lemma RunMissingColumns(header: seq<Column>, rows: seq<SourceRow>)
    requires !HasSourceColumns(header)
    ensures var missing := MissingSourceColumns(header);
      && Run(header, rows) == Err(MissingColumns(missing))
      && missing != []
      && forall n :: n in missing ==> n !in header
  {
  }

  /**
   * A run succeeds exactly when every source column is present and every
   * row's contact date converts; with the columns present, a failed run
   * reports the campaign table's error.
   */
  lemma RunFailure(header: seq<Column>, rows: seq<SourceRow>)
    ensures Run(header, rows).Ok? <==> HasSourceColumns(header) && forall i :: 0 <= i < |rows| ==> DateParses(rows[i])
    ensures HasSourceColumns(header) && Run(header, rows).Err? ==>
      CampaignTable(rows).Err? && Run(header, rows).error == CampaignTable(rows).error
  {
    CampaignTableOk(rows);
    if HasSourceColumns(header) {
      RunWithSourceColumns(header, rows);
    } else {
      RunMissingColumns(header, rows);
    }
  }

  /**
   * With every source column present and every contact date converting,
   * the run succeeds with the three output headers, and three tables as
   * long as the source and in its order, each row carrying its source row's
   * client_id, every campaign row with campaign_id 1.
   */
  lemma RunOutput(header: seq<Column>, rows: seq<SourceRow>)
    requires HasSourceColumns(header)
    requires forall i :: 0 <= i < |rows| ==> DateParses(rows[i])
    ensures Run(header, rows).Ok?
    ensures var t := Run(header, rows).value;
      && t.clientColumns == ClientHeader
      && t.campaignColumns == CampaignHeader
      && t.economicsColumns == EconomicsHeader
      && |t.client| == |t.campaign| == |t.economics| == |rows|
      && (forall i :: 0 <= i < |rows| ==>
            && t.client[i].id == rows[i].client_id
            && t.campaign[i].client_id == rows[i].client_id
            && t.economics[i].client_id == rows[i].client_id
            && t.campaign[i].campaign_id == 1)
  {
    RunFailure(header, rows);
    RunWithSourceColumns(header, rows);
    CampaignTableRows(rows);
  }

  /** In a successful run where every `y` is "yes" or "no", campaign_outcome is never absent, and 1 exactly for "yes". */
  lemma CampaignOutcomeNeverAbsent(header: seq<Column>, rows: seq<SourceRow>)
    requires HasSourceColumns(header)
    requires forall i :: 0 <= i < |rows| ==> DateParses(rows[i])
    requires forall i :: 0 <= i < |rows| ==> rows[i].y == "yes" || rows[i].y == "no"
    ensures Run(header, rows).Ok? && |Run(header, rows).value.campaign| == |rows|
    ensures var t := Run(header, rows).value;
      forall i :: 0 <= i < |rows| ==>
        t.campaign[i].campaign_outcome == if rows[i].y == "yes" then Some(1) else Some(0)
  {
    RunFailure(header, rows);
    RunWithSourceColumns(header, rows);
    CampaignTableRows(rows);
  }
}
