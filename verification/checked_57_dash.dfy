/** The KPI dashboard hard-wired to transformer 57 on feeder 7088: four sheets
    read by name, the master filtered, and the five KPIs as row counts. */
module Checked57Dash {
  import opened Results
  import opened Seqs
  import opened Text
  import opened Tables
  import FinalDashboard

  const DtrCode: int := 57
  const FeederCode: int := 7088

  /** Lines 11-27, with `pd.read_excel(file, sheet_name=sheet)` as the parameter
      `read` (None where the read raises); the first read that raises is the error. */
  function Run(read: (string, string) -> Option<Table>): Result<FinalDashboard.Report, Error>
  {
    match read("Master_7088.xlsx", "Sheet1")
    case None => Failure(LoadFailed("Master_7088.xlsx", "Sheet1"))
    case Some(masterAll) =>
      match read("7088-57.xlsx", "outage_154")
      case None => Failure(LoadFailed("7088-57.xlsx", "outage_154"))
      case Some(outage) =>
        match read("7088-57.xlsx", "untagged_19_meters")
        case None => Failure(LoadFailed("7088-57.xlsx", "untagged_19_meters"))
        case Some(untagged) =>
          match read("7088-57.xlsx", "wrongly_mapped_to_72")
          case None => Failure(LoadFailed("7088-57.xlsx", "wrongly_mapped_to_72"))
          case Some(wronglyMapped) =>
            var master := ScopeRows(masterAll, DtrCode, FeederCode);
            Success(FinalDashboard.Report(masterAll, master, outage, untagged, wronglyMapped,
                                          CountKpis(master, outage, untagged, wronglyMapped)))
  }

  /** A page that is shown keeps exactly the master rows of transformer 57 on
      feeder 7088, in order; KPI 1 counts them and so is at most the sheet's row
      count; KPIs 2 to 4 count the three sheets' rows; KPI 5 = KPI 2 + KPI 4. */
  lemma RunReport(read: (string, string) -> Option<Table>)
    ensures var r := Run(read);
      r.Success? ==>
        var k := r.value.kpis;
        IsSelection(r.value.master, r.value.masterAll, ScopeMask(57, 7088)) &&
        (forall x :: x in r.value.master <==> x in r.value.masterAll && x.dtrcode == 57 && x.feedercode == 7088) &&
        k.kpi1MasterTagged == |r.value.master| <= |r.value.masterAll| &&
        k.kpi2ConnectedOutage == |r.value.outage| &&
        k.kpi3Untagged == |r.value.untagged| &&
        k.kpi4WronglyMapped == |r.value.wronglyMapped| &&
        k.kpi5TotalCorrected == k.kpi2ConnectedOutage + k.kpi4WronglyMapped
  {
  }

  /** The registry entry "7088-57" of the combined dashboard names the same four
      sheets, and its codes parse to 57 and 7088. */
  lemma RegistryEntry57()
    ensures Lookup(FinalDashboard.DtrInfo, "7088-57") ==
      Some(FinalDashboard.Entry("Master_7088.xlsx", "Sheet1", "7088-57.xlsx", "outage_154",
                                "untagged_19_meters", "wrongly_mapped_to_72", "7088", "57"))
    ensures ParseInt("57") == Some(57) && ParseInt("7088") == Some(7088)
  {
    assert AllDigits("57") && AllDigits("7088");
    assert "57"[..1] == "5" && "5"[..0] == [];
    assert DigitsValue("57") == 57;
    assert "7088"[..3] == "708" && "708"[..2] == "70" && "70"[..1] == "7" && "7"[..0] == [];
    assert DigitsValue("70") == 70;
    assert DigitsValue("708") == 708;
    assert DigitsValue("7088") == 7088;
  }

  /** On the same workbooks this script and the combined dashboard with feeder
      "7088" and transformer "57" produce the same page, or fail on the same
      sheet: the combined one reads the master first, parses the two codes
      (which cannot fail here) and then reads the other sheets, in this order. */
  lemma AgreesWithFinalDashboard(read: (string, string) -> Option<Table>)
    ensures Run(read) == FinalDashboard.Run(FinalDashboard.DtrInfo, "7088", "57", read)
  {
    RegistryEntry57();
    assert FinalDashboard.Key("7088", "57") == "7088-57";
  }
}
