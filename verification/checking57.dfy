/** The diagnostic script for transformer 57 on feeder 7088: serial sets only,
    computed from the master sheet and the outage sheet's `msn` column. */
module Checking57 {
  import opened Text
  import opened Tables
  import opened Engine
  import Dashboard5

  const DtrCode: int := 57
  const FeederCode: int := 7088

  datatype Report = Report(
    master: Table,                      // master sheet after clean-up
    outage: Table,                      // outage sheet after clean-up; `msn` is the serial
    masterDtr: Table,
    outageMeters: set<string>,
    masterMeters: set<string>,
    otherDtrMeters: set<string>,
    wronglyMapped: set<string>,
    untagged: set<string>,
    correctlyTagged: set<string>,
    totalCorrected: nat)

  function Reconcile(masterSheet: Table, outageSheet: Table): Report
  {
    Analyse(CleanSerials(masterSheet), CleanSerials(outageSheet))
  }

  /** Everything after the clean-up of lines 11-12. */
  function Analyse(master: Table, outage: Table): Report
  {
    var masterDtr := ScopeRows(master, DtrCode, FeederCode);
    var outageMeters := Serials(outage);
    var masterMeters := Serials(masterDtr);
    var otherDtrMeters := OtherDtrMeters(master, DtrCode, FeederCode);
    var wronglyMapped := outageMeters * otherDtrMeters;
    var untagged := masterMeters - outageMeters;
    var correctlyTagged := masterMeters * outageMeters;
    Report(master, outage, masterDtr, outageMeters, masterMeters, otherDtrMeters,
           wronglyMapped, untagged, correctlyTagged, |correctlyTagged| + |wronglyMapped|)
  }

  /** Both sheets' serials are trimmed and upper-case after the clean-up. */
  lemma SerialsAreClean(masterSheet: Table, outageSheet: Table)
    ensures var r := Reconcile(masterSheet, outageSheet);
      SerialsClean(r.master) && SerialsClean(r.outage) &&
      forall v :: v in r.outageMeters + r.masterMeters + r.otherDtrMeters ==> IsClean(v)
  {
    var m, o := CleanSerials(masterSheet), CleanSerials(outageSheet);
    SerialsOfClean(m);
    SerialsOfClean(o);
    SerialsMonotone(ScopeRows(m, DtrCode, FeederCode), m);
    SerialsMonotone(Seqs.Filter(m, OtherDtrMask(DtrCode, FeederCode)), m);
  }

  /** A serial is wrongly mapped exactly when it was seen in the outage and some
      master row puts it on feeder 7088 under another transformer. */
  lemma WronglyMappedExact(masterSheet: Table, outageSheet: Table, v: string)
    ensures var r := Reconcile(masterSheet, outageSheet);
      v in r.wronglyMapped <==>
        v in r.outageMeters &&
        exists x :: x in r.master && x.feedercode == 7088 && x.dtrcode != 57 && x.serial == v
  {
  }

  /** The untagged and the correctly tagged serials split the transformer's serials in two. */
  lemma TaggedPartition(masterSheet: Table, outageSheet: Table)
    ensures var r := Reconcile(masterSheet, outageSheet);
      r.untagged + r.correctlyTagged == r.masterMeters &&
      r.untagged !! r.correctlyTagged &&
      |r.untagged| + |r.correctlyTagged| == |r.masterMeters|
  {
    TaggedPartitionOf(CleanSerials(masterSheet), CleanSerials(outageSheet));
  }

  lemma TaggedPartitionOf(master: Table, outage: Table)
    ensures var r := Analyse(master, outage);
      r.untagged + r.correctlyTagged == r.masterMeters &&
      r.untagged !! r.correctlyTagged &&
      |r.untagged| + |r.correctlyTagged| == |r.masterMeters|
  {
    var a, b := Serials(ScopeRows(master, DtrCode, FeederCode)), Serials(outage);
    SplitBy(a, b);
    assert (a - b) + (a * b) == a;
  }

  /** When no feeder-7088 serial is tagged both to transformer 57 and to another
      one, the two sets that `total_corrected` adds up are disjoint, so it counts
      distinct serials. */
  lemma TotalCorrectedIsDistinct(masterSheet: Table, outageSheet: Table)
    ensures var r := Reconcile(masterSheet, outageSheet);
      (r.masterMeters !! r.otherDtrMeters ==>
        r.wronglyMapped !! r.correctlyTagged &&
        r.totalCorrected == |r.correctlyTagged + r.wronglyMapped|) &&
      r.totalCorrected == |r.correctlyTagged| + |r.wronglyMapped|
  {
    var m, o := CleanSerials(masterSheet), CleanSerials(outageSheet);
    var masterMeters, otherDtrMeters := Serials(ScopeRows(m, DtrCode, FeederCode)), OtherDtrMeters(m, DtrCode, FeederCode);
    var ct, wm := masterMeters * Serials(o), Serials(o) * otherDtrMeters;
    if masterMeters !! otherDtrMeters {
      DisjointUnionCard(ct, wm);
    }
  }

  /** Against the KPI dashboard on the same sheets: the correctly tagged count is
      its KPI 2, and the serials of its wrongly mapped rows are the wrongly mapped
      serials here less those also tagged to transformer 57. */
  lemma AgreesWithDashboard5(masterSheet: Table, outageSheet: Table)
    ensures var r, d := Reconcile(masterSheet, outageSheet), Dashboard5.Reconcile(masterSheet, outageSheet);
      |r.correctlyTagged| == d.tagging.masterOutage &&
      Serials(d.feederOthers) == r.wronglyMapped - r.masterMeters
  {
    AnalysesAgree(CleanSerials(masterSheet), CleanSerials(outageSheet));
  }

  lemma AnalysesAgree(master: Table, outage: Table)
    ensures var r, d := Analyse(master, outage), Dashboard5.Analyse(master, outage);
      |r.correctlyTagged| == d.tagging.masterOutage &&
      Serials(d.feederOthers) == r.wronglyMapped - r.masterMeters
  {
    var masterMeters := Serials(ScopeRows(master, DtrCode, FeederCode));
    FeederOthersSerials(master, DtrCode, FeederCode, Serials(outage), masterMeters);
  }

  /** On a cleaned master sheet without repeated serials no serial is tagged both
      to 57 and to another transformer, so `total_corrected` is the KPI dashboard's
      KPI 5 on the same sheets. */
  lemma TotalCorrectedIsKpi5(masterSheet: Table, outageSheet: Table)
    requires DistinctSerials(CleanSerials(masterSheet))
    ensures var r, d := Reconcile(masterSheet, outageSheet), Dashboard5.Reconcile(masterSheet, outageSheet);
      r.masterMeters !! r.otherDtrMeters &&
      r.totalCorrected == d.kpi5TotalEffective
  {
    TotalCorrectedIsKpi5Of(CleanSerials(masterSheet), CleanSerials(outageSheet));
  }

  lemma TotalCorrectedIsKpi5Of(master: Table, outage: Table)
    requires DistinctSerials(master)
    ensures var r, d := Analyse(master, outage), Dashboard5.Analyse(master, outage);
      r.masterMeters !! r.otherDtrMeters &&
      r.totalCorrected == d.kpi5TotalEffective
  {
    AnalysesAgree(master, outage);
    TaggedNotOtherDtr(master, DtrCode, FeederCode);
    var r, d := Analyse(master, outage), Dashboard5.Analyse(master, outage);
    FilterDistinct(master, FeederOthersMask(DtrCode, FeederCode, d.wronglyMappedMeters));
    DistinctSerialsCount(d.feederOthers);
    MinusDisjoint(r.outageMeters, r.masterMeters, r.otherDtrMeters);
  }
}
