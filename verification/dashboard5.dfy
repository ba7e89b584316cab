/** The KPI-only dashboard for transformer 57 on feeder 7088, with cleaned serials. */
module Dashboard5 {
  import opened Seqs
  import opened Text
  import opened Tables
  import opened Engine

  const DtrCode: int := 57
  const FeederCode: int := 7088

  datatype Report = Report(
    master: Table,                      // master sheet after clean-up
    outage: Table,                      // outage sheet after clean-up
    masterDtr: Table,
    outageMeters: set<string>,
    masterMeters: set<string>,
    tagging: Tagging,                   // KPIs 1 to 3
    wronglyMappedMeters: set<string>,
    feederOthers: Table,
    kpi4WronglyMapped: nat,
    kpi5TotalEffective: nat)

  /** The whole computation of the script, from the two sheets as loaded. */
  function Reconcile(masterSheet: Table, outageSheet: Table): Report
  {
    Analyse(CleanSerials(masterSheet), CleanSerials(outageSheet))
  }

  /** Everything after the clean-up of lines 18-19. */
  function Analyse(master: Table, outage: Table): Report
  {
    var masterDtr := ScopeRows(master, DtrCode, FeederCode);
    var outageMeters := Serials(outage);
    var masterMeters := Serials(masterDtr);
    var tagging := TaggingCounts(masterMeters, outageMeters);
    var wronglyMappedMeters := outageMeters - masterMeters;
    var feederOthers := FeederOthers(master, DtrCode, FeederCode, wronglyMappedMeters);
    var kpi4 := |feederOthers|;
    Report(master, outage, masterDtr, outageMeters, masterMeters, tagging,
           wronglyMappedMeters, feederOthers, kpi4, tagging.masterOutage + kpi4)
  }

  /** Both sheets' serials are trimmed and upper-case once the script has cleaned them. */
  lemma SerialsAreClean(masterSheet: Table, outageSheet: Table)
    ensures var r := Reconcile(masterSheet, outageSheet);
      SerialsClean(r.master) && SerialsClean(r.outage) &&
      forall v :: v in r.outageMeters + r.masterMeters ==> IsClean(v)
  {
    var m, o := CleanSerials(masterSheet), CleanSerials(outageSheet);
    SerialsOfClean(m);
    SerialsOfClean(o);
    SerialsMonotone(ScopeRows(m, DtrCode, FeederCode), m);
  }

  /** `master_dtr` is exactly the cleaned master rows of transformer 57 on feeder 7088, in order. */
  lemma MasterDtrIsScope(masterSheet: Table, outageSheet: Table)
    ensures var r := Reconcile(masterSheet, outageSheet);
      IsSelection(r.masterDtr, r.master, ScopeMask(DtrCode, FeederCode)) &&
      forall x :: x in r.masterDtr <==> x in r.master && x.dtrcode == 57 && x.feedercode == 7088
  {
  }

  /** KPI 2 plus KPI 3 is the number of tagged serials, and KPI 2 is at most KPI 1. */
  lemma TaggingCountsAgree(masterSheet: Table, outageSheet: Table)
    ensures var r := Reconcile(masterSheet, outageSheet);
      r.tagging.masterOutage + r.tagging.untagged == |r.masterMeters| &&
      r.tagging.masterOutage <= r.tagging.connected
  {
  }

  /** The wrongly mapped serials are the outage serials not tagged to the transformer. */
  lemma WronglyMappedMeters(masterSheet: Table, outageSheet: Table)
    ensures var r := Reconcile(masterSheet, outageSheet);
      (forall v :: v in r.wronglyMappedMeters <==> v in r.outageMeters && v !in r.masterMeters) &&
      r.wronglyMappedMeters !! r.masterMeters
  {
  }

  /** Every row of `feeder_others` is on feeder 7088, on another transformer, with a
      wrongly mapped serial; it has at most KPI 1 minus KPI 2 distinct serials, and
      KPI 5 is KPI 2 plus its row count. */
  lemma FeederOthersRows(masterSheet: Table, outageSheet: Table)
    ensures var r := Reconcile(masterSheet, outageSheet);
      (forall x :: x in r.feederOthers ==>
         x.feedercode == 7088 && x.dtrcode != 57 && x.serial in r.wronglyMappedMeters) &&
      |Serials(r.feederOthers)| <= r.tagging.connected - r.tagging.masterOutage &&
      r.kpi4WronglyMapped == |r.feederOthers| &&
      r.kpi5TotalEffective == r.tagging.masterOutage + r.kpi4WronglyMapped
  {
    var r := Reconcile(masterSheet, outageSheet);
    assert |r.wronglyMappedMeters| == |r.outageMeters| - |r.masterMeters * r.outageMeters|;
  }

  /** On a cleaned master sheet without repeated serials, KPI 4 counts wrongly
      mapped meters: one row per seen serial that another transformer of feeder
      7088 carries and transformer 57 does not. */
  lemma WronglyMappedCount(masterSheet: Table, outageSheet: Table)
    requires DistinctSerials(CleanSerials(masterSheet))
    ensures var r := Reconcile(masterSheet, outageSheet);
      r.kpi4WronglyMapped == |Serials(r.feederOthers)| ==
      |(r.outageMeters * OtherDtrMeters(r.master, 57, 7088)) - r.masterMeters|
  {
    var m := CleanSerials(masterSheet);
    FeederOthersCount(m, DtrCode, FeederCode, Serials(CleanSerials(outageSheet)),
                      Serials(ScopeRows(m, DtrCode, FeederCode)));
  }
}
