/** The single-transformer dashboard for transformer 32 on feeder 7088: cleaned
    serials, the five KPIs, the loss percentage and the detail tables. */
module Dashboard32Dtr {
  import opened Seqs
  import opened Text
  import opened Tables
  import opened Engine

  const DtrCode: int := 32
  const FeederCode: int := 7088

  datatype Report = Report(
    master: Table,                      // master sheet after clean-up
    outage: Table,                      // outage sheet after clean-up
    masterDtr: Table,
    outageMeters: set<string>,
    masterMeters: set<string>,
    tagging: Tagging,                   // KPIs 1 to 3
    wronglyMappedMeters: set<string>,
    wronglyMappedRows: Table,           // `wrongly_mapped_df`
    kpi4WronglyMapped: nat,
    kpi5Corrected: nat,
    lossPercent: real,
    details: Split)                     // `df_master_tagged_outage`, `df_untagged`

  /** The whole computation of the script, from the two sheets as loaded. */
  function Reconcile(masterSheet: Table, outageSheet: Table): Report
  {
    Analyse(CleanSerials(masterSheet), CleanSerials(outageSheet))
  }

  /** Everything after the clean-up of lines 18-19. */
  function Analyse(master: Table, outage: Table): Report
  {
    var masterDtr := ScopeRows(master, DtrCode, FeederCode);
    var outageMeters := Serials(outage);
    var masterMeters := Serials(masterDtr);
    var tagging := TaggingCounts(masterMeters, outageMeters);
    var wronglyMappedMeters := outageMeters - masterMeters;
    var wronglyMappedRows := FeederOthers(master, DtrCode, FeederCode, wronglyMappedMeters);
    var kpi4 := |wronglyMappedRows|;
    Report(master, outage, masterDtr, outageMeters, masterMeters, tagging,
           wronglyMappedMeters, wronglyMappedRows, kpi4, tagging.masterOutage + kpi4,
           LossPercent(tagging.untagged, |masterMeters|),
           DetailSplit(masterDtr, outageMeters))
  }

  /** Both sheets' serials are trimmed and upper-case once the script has cleaned them. */
  lemma SerialsAreClean(masterSheet: Table, outageSheet: Table)
    ensures var r := Reconcile(masterSheet, outageSheet);
      SerialsClean(r.master) && SerialsClean(r.outage) &&
      forall v :: v in r.outageMeters + r.masterMeters ==> IsClean(v)
  {
    var m, o := CleanSerials(masterSheet), CleanSerials(outageSheet);
    SerialsOfClean(m);
    SerialsOfClean(o);
    SerialsMonotone(ScopeRows(m, DtrCode, FeederCode), m);
  }

  /** `master_dtr` is exactly the cleaned master rows of transformer 32 on feeder 7088, in order. */
  lemma MasterDtrIsScope(masterSheet: Table, outageSheet: Table)
    ensures var r := Reconcile(masterSheet, outageSheet);
      IsSelection(r.masterDtr, r.master, ScopeMask(DtrCode, FeederCode)) &&
      forall x :: x in r.masterDtr <==> x in r.master && x.dtrcode == 32 && x.feedercode == 7088
  {
  }

  /** KPI 2 plus KPI 3 is the number of distinct serials tagged to the transformer. */
  lemma TaggedPlusUntagged(masterSheet: Table, outageSheet: Table)
    ensures var r := Reconcile(masterSheet, outageSheet);
      r.tagging.masterOutage + r.tagging.untagged == |r.masterMeters|
  {
  }

  /** The wrongly mapped serials were seen in the outage sheet and are not tagged to the transformer. */
  lemma WronglyMappedMeters(masterSheet: Table, outageSheet: Table)
    ensures var r := Reconcile(masterSheet, outageSheet);
      r.wronglyMappedMeters <= r.outageMeters && r.wronglyMappedMeters !! r.masterMeters
  {
  }

  /** `wrongly_mapped_df` holds exactly the master rows on feeder 7088, on another
      transformer, whose serial was seen in the outage but is not tagged to 32; KPI 4 counts them. */
  lemma WronglyMappedRows(masterSheet: Table, outageSheet: Table)
    ensures var r := Reconcile(masterSheet, outageSheet);
      (forall x :: x in r.wronglyMappedRows <==>
         x in r.master && x.feedercode == 7088 && x.dtrcode != 32 &&
         x.serial in r.outageMeters && x.serial !in r.masterMeters) &&
      r.kpi4WronglyMapped == |r.wronglyMappedRows| &&
      r.kpi5Corrected == r.tagging.masterOutage + r.kpi4WronglyMapped
  {
  }

  /** The loss is 0 without tagged meters, otherwise KPI 3 over the tagged meters
      times 100, and it always lies between 0 and 100. */
  lemma LossPercentRange(masterSheet: Table, outageSheet: Table)
    ensures var r := Reconcile(masterSheet, outageSheet);
      (|r.masterMeters| == 0 ==> r.lossPercent == 0.0) &&
      (|r.masterMeters| > 0 ==>
         r.lossPercent == r.tagging.untagged as real / |r.masterMeters| as real * 100.0) &&
      0.0 <= r.lossPercent <= 100.0
  {
  }

  /** The two detail tables split `master_dtr` into order-preserving parts: the
      rows seen in the outage and the rows not seen. */
  lemma DetailTablesPartition(masterSheet: Table, outageSheet: Table)
    ensures var r := Reconcile(masterSheet, outageSheet);
      Interleaves(r.details.tagged, r.details.untagged, r.masterDtr) &&
      (forall x :: x in r.details.tagged ==> x.serial in r.outageMeters) &&
      (forall x :: x in r.details.untagged ==> x.serial !in r.outageMeters)
  {
  }

  /** Feeding the script sheets it has already cleaned gives the same report. */
  lemma ReconcileIdempotent(masterSheet: Table, outageSheet: Table)
    ensures Reconcile(CleanSerials(masterSheet), CleanSerials(outageSheet)) == Reconcile(masterSheet, outageSheet)
  {
    CleanSerialsIdempotent(masterSheet);
    CleanSerialsIdempotent(outageSheet);
    assert Reconcile(CleanSerials(masterSheet), CleanSerials(outageSheet))
        == Analyse(CleanSerials(CleanSerials(masterSheet)), CleanSerials(CleanSerials(outageSheet)));
  }

  /** On a cleaned master sheet without repeated serials, KPI 4 counts wrongly
      mapped meters: one row per seen serial that another transformer of feeder
      7088 carries and transformer 32 does not. */
  lemma WronglyMappedCount(masterSheet: Table, outageSheet: Table)
    requires DistinctSerials(CleanSerials(masterSheet))
    ensures var r := Reconcile(masterSheet, outageSheet);
      r.kpi4WronglyMapped == |Serials(r.wronglyMappedRows)| ==
      |(r.outageMeters * OtherDtrMeters(r.master, 32, 7088)) - r.masterMeters|
  {
    var m := CleanSerials(masterSheet);
    FeederOthersCount(m, DtrCode, FeederCode, Serials(CleanSerials(outageSheet)),
                      Serials(ScopeRows(m, DtrCode, FeederCode)));
  }
}
