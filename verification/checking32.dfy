/** The diagnostic script for transformer 32 on feeder 7088: the wrongly mapped
    and the untagged serial sets. */
module Checking32 {
  import opened Text
  import opened Tables
  import opened Engine
  import Dashboard32Dtr

  const DtrCode: int := 32
  const FeederCode: int := 7088

  datatype Report = Report(
    master: Table,                      // master sheet after clean-up
    outage: Table,                      // outage sheet after clean-up
    masterDtr: Table,
    outageMeters: set<string>,
    masterMeters: set<string>,
    otherDtrMeters: set<string>,
    wronglyMapped: set<string>,
    untagged: set<string>)

  function Reconcile(masterSheet: Table, outageSheet: Table): Report
  {
    Analyse(CleanSerials(masterSheet), CleanSerials(outageSheet))
  }

  /** Everything after the clean-up of lines 14-15. */
  function Analyse(master: Table, outage: Table): Report
  {
    var masterDtr := ScopeRows(master, DtrCode, FeederCode);
    var outageMeters := Serials(outage);
    var masterMeters := Serials(masterDtr);
    var otherDtrMeters := OtherDtrMeters(master, DtrCode, FeederCode);
    Report(master, outage, masterDtr, outageMeters, masterMeters, otherDtrMeters,
           Serials(outage) * otherDtrMeters, Serials(masterDtr) - Serials(outage))
  }

  /** Both sheets' serials are trimmed and upper-case after the clean-up. */
  lemma SerialsAreClean(masterSheet: Table, outageSheet: Table)
    ensures var r := Reconcile(masterSheet, outageSheet);
      SerialsClean(r.master) && SerialsClean(r.outage) &&
      forall v :: v in r.outageMeters + r.masterMeters + r.otherDtrMeters ==> IsClean(v)
  {
    var m, o := CleanSerials(masterSheet), CleanSerials(outageSheet);
    SerialsOfClean(m);
    SerialsOfClean(o);
    SerialsMonotone(ScopeRows(m, DtrCode, FeederCode), m);
    SerialsMonotone(Seqs.Filter(m, OtherDtrMask(DtrCode, FeederCode)), m);
  }

  /** `master_dtr` keeps exactly the cleaned master rows of transformer 32 on feeder 7088, in order. */
  lemma MasterDtrIsScope(masterSheet: Table, outageSheet: Table)
    ensures var r := Reconcile(masterSheet, outageSheet);
      Seqs.IsSelection(r.masterDtr, r.master, ScopeMask(32, 7088)) &&
      forall x :: x in r.masterDtr <==> x in r.master && x.dtrcode == 32 && x.feedercode == 7088
  {
  }

  /** The wrongly mapped serials were seen in the outage and are tagged elsewhere on
      the feeder; the untagged ones are the transformer's and were not seen. */
  lemma SetBounds(masterSheet: Table, outageSheet: Table)
    ensures var r := Reconcile(masterSheet, outageSheet);
      r.wronglyMapped <= r.outageMeters && r.wronglyMapped <= r.otherDtrMeters &&
      r.untagged <= r.masterMeters && r.untagged !! r.outageMeters
  {
  }

  /** A serial is wrongly mapped exactly when it was seen in the outage and some
      cleaned master row puts it on feeder 7088 under another transformer; it is
      untagged exactly when a row puts it on transformer 32 and the outage lacks it. */
  lemma SetsExact(masterSheet: Table, outageSheet: Table, v: string)
    ensures var r := Reconcile(masterSheet, outageSheet);
      (v in r.wronglyMapped <==>
        v in r.outageMeters &&
        exists x :: x in r.master && x.feedercode == 7088 && x.dtrcode != 32 && x.serial == v) &&
      (v in r.untagged <==>
        v !in r.outageMeters &&
        exists x :: x in r.master && x.feedercode == 7088 && x.dtrcode == 32 && x.serial == v)
  {
  }

  /** Against the transformer-32 dashboard on the same sheets: its untagged count is
      the size of the untagged set here, and the serials of its wrongly mapped rows
      are the wrongly mapped serials here less those also tagged to transformer 32. */
  lemma AgreesWithDashboard32Dtr(masterSheet: Table, outageSheet: Table)
    ensures var r, d := Reconcile(masterSheet, outageSheet), Dashboard32Dtr.Reconcile(masterSheet, outageSheet);
      |r.untagged| == d.tagging.untagged &&
      Serials(d.wronglyMappedRows) == r.wronglyMapped - r.masterMeters
  {
    AnalysesAgree(CleanSerials(masterSheet), CleanSerials(outageSheet));
  }

  lemma AnalysesAgree(master: Table, outage: Table)
    ensures var r, d := Analyse(master, outage), Dashboard32Dtr.Analyse(master, outage);
      |r.untagged| == d.tagging.untagged &&
      Serials(d.wronglyMappedRows) == r.wronglyMapped - r.masterMeters
  {
    var masterMeters := Serials(ScopeRows(master, DtrCode, FeederCode));
    FeederOthersSerials(master, DtrCode, FeederCode, Serials(outage), masterMeters);
  }
}
