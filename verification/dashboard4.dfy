/** The uncleaned dashboard for transformer 57 on feeder 7088: the same KPIs as
    dashboard5, but on serials as loaded (no clean-up) and with a feeder-only
    test for the wrongly mapped rows. */
module Dashboard4 {
  import opened Seqs
  import opened Tables
  import opened Engine
  import Dashboard5

  const DtrCode: int := 57
  const FeederCode: int := 7088

  /** `(Feedercode == feeder_code) & serial.isin(ids)`: no transformer test. */
  function FeederMappedMask(ids: set<string>): Row -> bool
  {
    (x: Row) => x.feedercode == FeederCode && x.serial in ids
  }

  datatype Report = Report(
    masterDtr: Table,
    outageMeters: set<string>,
    masterMeters: set<string>,
    tagging: Tagging,                   // KPIs 1 to 3
    wronglyMapped: set<string>,
    feederMapped: Table,
    kpi4WronglyMapped: nat,
    kpi5TotalEffective: nat,
    details: Split)                     // `df_master_tagged_outage`, `df_unmapped`

  function Reconcile(master: Table, outage: Table): Report
  {
    var masterDtr := ScopeRows(master, DtrCode, FeederCode);
    var outageMeters := Serials(outage);
    var masterMeters := Serials(masterDtr);
    var tagging := TaggingCounts(masterMeters, outageMeters);
    var wronglyMapped := Serials(outage) - masterMeters;
    var feederMapped := Filter(master, FeederMappedMask(wronglyMapped));
    var kpi4 := |feederMapped|;
    Report(masterDtr, outageMeters, masterMeters, tagging, wronglyMapped, feederMapped,
           kpi4, tagging.masterOutage + kpi4, DetailSplit(masterDtr, outageMeters))
  }

  /** `master_dtr` is exactly the master rows of transformer 57 on feeder 7088, in order. */
  lemma MasterDtrIsScope(master: Table, outage: Table)
    ensures var r := Reconcile(master, outage);
      IsSelection(r.masterDtr, master, ScopeMask(DtrCode, FeederCode)) &&
      forall x :: x in r.masterDtr <==> x in master && x.dtrcode == 57 && x.feedercode == 7088
  {
  }

  /** KPI 2 plus KPI 3 is the number of tagged serials, and the wrongly mapped
      serials are the outage serials not tagged to the transformer. */
  lemma TaggingAndWronglyMapped(master: Table, outage: Table)
    ensures var r := Reconcile(master, outage);
      r.tagging.masterOutage + r.tagging.untagged == |r.masterMeters| &&
      r.wronglyMapped == r.outageMeters - r.masterMeters &&
      r.wronglyMapped !! r.masterMeters
  {
  }

  /** Although line 35 tests only the feeder, no row of `feeder_mapped` is on
      transformer 57: such a row would be in `master_dtr`, so its serial would be
      tagged and not wrongly mapped. KPI 5 is KPI 2 plus the row count. */
  lemma FeederMappedIsOtherDtr(master: Table, outage: Table)
    ensures var r := Reconcile(master, outage);
      (forall x :: x in r.feederMapped ==>
         x in master && x.feedercode == 7088 && x.dtrcode != 57 && x.serial in r.wronglyMapped) &&
      r.kpi5TotalEffective == r.tagging.masterOutage + r.kpi4WronglyMapped
  {
    var r := Reconcile(master, outage);
    forall x | x in r.feederMapped
      ensures x.dtrcode != 57
    {
      assert x.dtrcode == 57 ==> x in r.masterDtr;
    }
  }

  /** The feeder-only filter of line 35 picks the same rows, in the same order,
      as the same-feeder-other-transformer filter of dashboard5 and dashboard_32dtr. */
  lemma FeederMappedIsFeederOthers(master: Table, outage: Table)
    ensures var r := Reconcile(master, outage);
      r.feederMapped == FeederOthers(master, DtrCode, FeederCode, r.wronglyMapped)
  {
    var r := Reconcile(master, outage);
    var ids := r.wronglyMapped;
    forall x | x in master
      ensures FeederMappedMask(ids)(x) == FeederOthersMask(DtrCode, FeederCode, ids)(x)
    {
      assert x.feedercode == 7088 && x.dtrcode == 57 ==> x in r.masterDtr;
    }
    FilterCongruent(master, FeederMappedMask(ids), FeederOthersMask(DtrCode, FeederCode, ids));
  }

  /** On a master sheet without repeated serials, KPI 4 counts wrongly mapped
      meters: one row per seen serial that another transformer of feeder 7088
      carries and transformer 57 does not. */
  lemma WronglyMappedCount(master: Table, outage: Table)
    requires DistinctSerials(master)
    ensures var r := Reconcile(master, outage);
      r.kpi4WronglyMapped == |Serials(r.feederMapped)| ==
      |(r.outageMeters * OtherDtrMeters(master, 57, 7088)) - r.masterMeters|
  {
    FeederMappedIsFeederOthers(master, outage);
    FeederOthersCount(master, DtrCode, FeederCode, Serials(outage), Serials(ScopeRows(master, DtrCode, FeederCode)));
  }

  /** The two detail tables split `master_dtr` into order-preserving parts: the
      rows seen in the outage and the rows not seen. */
  lemma DetailTablesPartition(master: Table, outage: Table)
    ensures var r := Reconcile(master, outage);
      Interleaves(r.details.tagged, r.details.untagged, r.masterDtr) &&
      (forall x :: x in r.details.tagged ==> x.serial in r.outageMeters) &&
      (forall x :: x in r.details.untagged ==> x.serial !in r.outageMeters)
  {
  }

  /** On sheets whose serials are already clean, this script and dashboard5
      compute the same wrongly mapped rows and the same five KPIs. */
  lemma AgreesWithDashboard5(master: Table, outage: Table)
    requires SerialsClean(master) && SerialsClean(outage)
    ensures var r, s := Reconcile(master, outage), Dashboard5.Reconcile(master, outage);
      r.feederMapped == s.feederOthers &&
      r.tagging == s.tagging &&
      r.kpi4WronglyMapped == s.kpi4WronglyMapped &&
      r.kpi5TotalEffective == s.kpi5TotalEffective
  {
    CleanSerialsOfClean(master);
    CleanSerialsOfClean(outage);
    var r, s := Reconcile(master, outage), Dashboard5.Reconcile(master, outage);
    assert s == Dashboard5.Analyse(master, outage);
    assert r.wronglyMapped == s.wronglyMappedMeters;
    FeederMappedIsFeederOthers(master, outage);
  }
}
