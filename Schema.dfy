/**
 * The column labels of the source file and of the three output files, and
 * the column list of each frame as the script's column operations leave it.
 */
module Schema {
  import opened Wrappers
  import opened Columns

  /**
   * A column label. Each constructor is spelled exactly as the label in the
   * files; `Other` stands for any further column of the source file.
   */
  datatype Column =
    | client_id | age | job | marital | education | credit_default | housing | loan
    | campaign | month | day | duration | pdays | previous | poutcome | y
    | emp_var_rate | cons_price_idx | euribor3m | nr_employed
    | id | number_contacts | contact_duration | previous_campaign_contacts
    | previous_outcome | campaign_outcome | campaign_id | year | last_contact_date
    | euribor_three_months | number_employed
    | Other(name: string)

  // The columns each frame takes from the source, and their renames.

  const ClientSourceColumns: seq<Column> :=
    [client_id, age, job, marital, education, credit_default, housing, loan]
  const CampaignSourceColumns: seq<Column> :=
    [client_id, campaign, month, day, duration, pdays, previous, poutcome, y]
  const EconomicsSourceColumns: seq<Column> :=
    [client_id, emp_var_rate, cons_price_idx, euribor3m, nr_employed]

  const ClientRenames: map<Column, Column> := map[client_id := id]
  const CampaignRenames: map<Column, Column> :=
    map[duration := contact_duration, y := campaign_outcome, campaign := number_contacts,
        previous := previous_campaign_contacts, poutcome := previous_outcome]
  const EconomicsRenames: map<Column, Column> :=
    map[euribor3m := euribor_three_months, nr_employed := number_employed]

  /** The columns dropped from the campaign frame once the date is built. */
  const CampaignDropped: seq<Column> := [month, day, year]

  // The headers of the three output files.

  const ClientHeader: seq<Column> :=
    [id, age, job, marital, education, credit_default, housing, loan]
  const CampaignHeader: seq<Column> :=
    [client_id, number_contacts, contact_duration, pdays, previous_campaign_contacts,
     previous_outcome, campaign_outcome, campaign_id, last_contact_date]
  const EconomicsHeader: seq<Column> :=
    [client_id, emp_var_rate, cons_price_idx, euribor_three_months, number_employed]

  /** The client frame: renamed, then education reassigned twice and job once. */
  function ClientColumns(selected: seq<Column>): seq<Column>
  {
    Assign(Assign(Assign(Rename(selected, ClientRenames), education), education), job)
  }

  /** The campaign frame up to the drop: renamed, then each column assignment in the script's order. */
  function CampaignDated(selected: seq<Column>): seq<Column>
  {
    DateColumns(StampColumns(Rename(selected, CampaignRenames)))
  }

  /** The two outcome columns reassigned (the previous outcome twice), then campaign_id assigned. */
  function StampColumns(columns: seq<Column>): seq<Column>
  {
    Assign(Assign(Assign(Assign(columns, campaign_outcome), previous_outcome), previous_outcome), campaign_id)
  }

  /** month, year and day assigned, then last_contact_date assigned twice. */
  function DateColumns(columns: seq<Column>): seq<Column>
  {
    Assign(Assign(Assign(Assign(Assign(columns, month), year), day), last_contact_date), last_contact_date)
  }

  /** The campaign frame: month, day and year dropped at the end. */
  function CampaignColumns(selected: seq<Column>): Result<seq<Column>, seq<Column>>
  {
    Drop(CampaignDated(selected), CampaignDropped)
  }

  /** The economics frame: renamed only. */
  function EconomicsColumns(selected: seq<Column>): seq<Column>
  {
    Rename(selected, EconomicsRenames)
  }

  /** Projected from the source columns, the client frame ends with exactly the client header. */
  lemma ClientOutputColumns()
    ensures ClientColumns(ClientSourceColumns) == ClientHeader
  {
    var renamed := Rename(ClientSourceColumns, ClientRenames);
    assert renamed == ClientHeader by {
      assert forall i :: 0 <= i < |renamed| ==> renamed[i] == ClientHeader[i];
    }
    assert education in renamed && job in renamed;
  }

  /** Projected from the source columns, the economics frame ends with exactly the economics header. */
  lemma EconomicsOutputColumns()
    ensures EconomicsColumns(EconomicsSourceColumns) == EconomicsHeader
  {
    var renamed := EconomicsColumns(EconomicsSourceColumns);
    assert forall i :: 0 <= i < |renamed| ==> renamed[i] == EconomicsHeader[i];
  }

  /**
   * Projected from the source columns, the campaign frame ends with exactly
   * the campaign header: month, day and year are gone, the renamed columns
   * keep their order, campaign_id and last_contact_date come last.
   */
  lemma CampaignOutputColumns()
    ensures CampaignColumns(CampaignSourceColumns) == Ok(CampaignHeader)
    ensures forall n :: n in CampaignDropped ==> n !in CampaignHeader
  {
    CampaignDatedColumns();
    CampaignDropAccepted();
    CampaignDropResult();
  }

  /** Each of the three dropped names is a column of the frame, so the drop raises nothing. */
  lemma CampaignDropAccepted()
    ensures var dated := CampaignRenamedColumns + [campaign_id, year, last_contact_date];
      Drop(dated, CampaignDropped) == Ok(Without(dated, CampaignDropped))
  {
    var dated := CampaignRenamedColumns + [campaign_id, year, last_contact_date];
    assert dated[2] == month && dated[3] == day && dated[10] == year;
  }

  /** What the drop leaves of the twelve columns is the campaign header. */
  lemma CampaignDropResult()
    ensures Without(CampaignRenamedColumns + [campaign_id, year, last_contact_date], CampaignDropped) == CampaignHeader
  {
    var dated := CampaignRenamedColumns + [campaign_id, year, last_contact_date];
    assert dated[2] in CampaignDropped && dated[3] in CampaignDropped && dated[10] in CampaignDropped;
    assert dated[0] !in CampaignDropped && dated[1] !in CampaignDropped;
    assert dated[4] !in CampaignDropped && dated[5] !in CampaignDropped;
    assert dated[6] !in CampaignDropped && dated[7] !in CampaignDropped;
    assert dated[8] !in CampaignDropped && dated[9] !in CampaignDropped;
    assert dated[11] !in CampaignDropped;
    CampaignPruned(dated, CampaignDropped);
  }

  /** The campaign columns right after the renames: the source order, each renamed column in its old place. */
  const CampaignRenamedColumns: seq<Column> :=
    [client_id, number_contacts, month, day, contact_duration, pdays,
     previous_campaign_contacts, previous_outcome, campaign_outcome]

  lemma CampaignRenamed()
    ensures Rename(CampaignSourceColumns, CampaignRenames) == CampaignRenamedColumns
  {
    var renamed := Rename(CampaignSourceColumns, CampaignRenames);
    assert forall i :: 0 <= i < 9 ==> renamed[i] == CampaignRenamedColumns[i];
  }

  /** Before the drop: the renamed columns, then campaign_id, year and last_contact_date appended in that order. */
  lemma CampaignDatedColumns()
    ensures CampaignDated(CampaignSourceColumns) == CampaignRenamedColumns + [campaign_id, year, last_contact_date]
  {
    CampaignRenamed();
    CampaignDatedOf(CampaignSourceColumns);
  }

  lemma CampaignDatedOf(selected: seq<Column>)
    requires Rename(selected, CampaignRenames) == CampaignRenamedColumns
    ensures CampaignDated(selected) == CampaignRenamedColumns + [campaign_id, year, last_contact_date]
  {
    RenamedCampaignLabels();
    var renamed := CampaignRenamedColumns;
    OutcomesAndIdAssigned(renamed);
    var stamped := renamed + [campaign_id];
    assert month in stamped && day in stamped;
    DatePartsAssigned(stamped);
  }

  /** Which labels the renamed campaign frame already has. */
  lemma RenamedCampaignLabels()
    ensures campaign_outcome in CampaignRenamedColumns && previous_outcome in CampaignRenamedColumns
    ensures month in CampaignRenamedColumns && day in CampaignRenamedColumns
    ensures campaign_id !in CampaignRenamedColumns && year !in CampaignRenamedColumns
    ensures last_contact_date !in CampaignRenamedColumns
  {
    var renamed := CampaignRenamedColumns;
    assert renamed[8] == campaign_outcome && renamed[7] == previous_outcome;
    assert renamed[2] == month && renamed[3] == day;
  }

  /** Both outcome columns are reassigned in place; campaign_id is new and goes last. */
  lemma OutcomesAndIdAssigned(renamed: seq<Column>)
    requires campaign_outcome in renamed && previous_outcome in renamed && campaign_id !in renamed
    ensures StampColumns(renamed) == renamed + [campaign_id]
  {
  }

  /** month and day are reassigned in place; year and then last_contact_date are new and go last. */
  lemma DatePartsAssigned(stamped: seq<Column>)
    requires month in stamped && day in stamped && year !in stamped && last_contact_date !in stamped
    ensures DateColumns(stamped) == stamped + [year, last_contact_date]
  {
    assert last_contact_date !in stamped + [year];
  }

  /** Dropping the three date parts from the twelve columns before the drop, one column at a time. */
  lemma CampaignPruned(dated: seq<Column>, names: seq<Column>)
    requires |dated| == 12
    requires dated[2] in names && dated[3] in names && dated[10] in names
    requires dated[0] !in names && dated[1] !in names && dated[4] !in names && dated[5] !in names
    requires dated[6] !in names && dated[7] !in names && dated[8] !in names && dated[9] !in names
    requires dated[11] !in names
    ensures Without(dated, names) ==
      [dated[0], dated[1], dated[4], dated[5], dated[6], dated[7], dated[8], dated[9], dated[11]]
  {
    assert dated[12..] == [];
    WithoutKeep(dated, 11, names);
    WithoutSkip(dated, 10, names);
    WithoutKeep(dated, 9, names);
    WithoutKeep(dated, 8, names);
    WithoutKeep(dated, 7, names);
    WithoutKeep(dated, 6, names);
    WithoutKeep(dated, 5, names);
    WithoutKeep(dated, 4, names);
    WithoutSkip(dated, 3, names);
    WithoutSkip(dated, 2, names);
    WithoutKeep(dated, 1, names);
    WithoutKeep(dated, 0, names);
    assert dated[0..] == dated;
  }
}
