/** The registry-driven KPI dashboard: a fixed registry says, for each
    feeder-transformer pair, which workbook sheets hold its data; the page picks
    a feeder and one of its transformers, loads the four sheets and counts rows. */
module FinalDashboard {
  import opened Results
  import opened Seqs
  import opened Text
  import opened Ordering
  import opened Tables

  /** One `dtr_info` value: where the pair's sheets are, and its codes as text. */
  datatype Entry = Entry(
    masterFile: string,
    masterSheet: string,
    outageFile: string,
    outageSheet: string,
    untaggedSheet: string,
    wronglyMappedSheet: string,
    feeder: string,
    dtr: string)

  /** `dtr_info`, in insertion order. */
  type Registry = seq<(string, Entry)>

  const DtrInfo: Registry := [
    ("7088-57", Entry("Master_7088.xlsx", "Sheet1", "7088-57.xlsx", "outage_154",
                      "untagged_19_meters", "wrongly_mapped_to_72", "7088", "57")),
    ("7088-32", Entry("Master_7088.xlsx", "Sheet1", "7088-32.xlsx", "Outage_37",
                      "Untagged_4", "32_meters_wrongly_mapped", "7088", "32")),
    ("7088-86", Entry("Master_7088.xlsx", "Sheet1", "7088-86.xlsx", "outage_164",
                      "untagged_34_meters", "26_meter_wrongly_mapped_to _82", "7088", "86")),
    ("15631-34", Entry("Master_Feeder_15631.xlsx", "Sheet1", "15631-34.xlsx", "Outage_345",
                       "Unmapped_67", "wrongly_mapped_40", "15631", "34"))
  ]

  /** The key the page builds from a chosen feeder and transformer (line 64). */
  function Key(feeder: string, dtr: string): string
  {
    feeder + "-" + dtr
  }

  /** For feeder codes without a dash, the key names exactly one feeder and transformer pair. */
  lemma KeyInjective(f1: string, d1: string, f2: string, d2: string)
    requires '-' !in f1 && '-' !in f2
    ensures Key(f1, d1) == Key(f2, d2) ==> f1 == f2 && d1 == d2
  {
    var k1, k2 := Key(f1, d1), Key(f2, d2);
    if k1 == k2 {
      assert k1[|f1|] == '-' && k2[|f2|] == '-';
      assert forall i :: 0 <= i < |f1| ==> k1[i] == f1[i] && f1[i] in f1;
      assert forall i :: 0 <= i < |f2| ==> k2[i] == f2[i] && f2[i] in f2;
      assert |f1| == |f2|;
      assert f1 == k1[..|f1|] && d1 == k1[|f1| + 1..];
    }
  }

  /** Every key is its entry's feeder and transformer joined by a dash, and no key repeats. */
  predicate WellFormed(reg: Registry)
  {
    UniqueKeys(reg) && forall i :: 0 <= i < |reg| ==> reg[i].0 == Key(reg[i].1.feeder, reg[i].1.dtr)
  }

  lemma DtrInfoWellFormed()
    ensures WellFormed(DtrInfo)
  {
    var k := seq(4, i requires 0 <= i < 4 => DtrInfo[i].0);
    assert k[0][5] == '5' && k[1][5] == '3' && k[2][5] == '8' && |k[3]| == 8;
    assert |k[0]| == |k[1]| == |k[2]| == 7;
    forall i | 0 <= i < 4
      ensures DtrInfo[i].0 == Key(DtrInfo[i].1.feeder, DtrInfo[i].1.dtr)
    {
    }
  }

  /** The entries' feeders, in registry order, repeats included. */
  function Feeders(reg: Registry): (r: seq<string>)
    ensures |r| == |reg| && forall i :: 0 <= i < |reg| ==> r[i] == reg[i].1.feeder
  {
    seq(|reg|, i requires 0 <= i < |reg| => reg[i].1.feeder)
  }

  /** `sorted(set(x['feeder'] for x in dtr_info.values()))`: each feeder once, in string order. */
  function FeederOptions(reg: Registry): (r: seq<string>)
    ensures StrictlySorted(r)
    ensures forall f :: f in r <==> f in Feeders(reg)
  {
    SortedSetOf(Feeders(reg))
  }

  /** The transformers of feeder f, in registry order: what the grouping loop
      appends under f. */
  function DtrsOf(reg: Registry, f: string): (r: seq<string>)
    ensures forall d :: d in r ==> exists i :: 0 <= i < |reg| && reg[i].1.feeder == f && reg[i].1.dtr == d
    ensures forall i :: 0 <= i < |reg| && reg[i].1.feeder == f ==> reg[i].1.dtr in r
  {
    if reg == [] then []
    else
      var e := reg[|reg| - 1].1;
      DtrsOf(reg[..|reg| - 1], f) + (if e.feeder == f then [e.dtr] else [])
  }

  /** Lines 54-56: `feeder_to_dtr.setdefault(v['feeder'], []).append(v['dtr'])`
      over the registry, which leaves under each feeder that occurs its
      transformers in registry order, and no other key. */
  method GroupDtrsByFeeder(reg: Registry) returns (m: map<string, seq<string>>)
    ensures forall f :: f in m <==> f in Feeders(reg)
    ensures forall f :: f in m ==> m[f] == DtrsOf(reg, f)
  {
    m := map[];
    var i := 0;
    while i < |reg|
      invariant 0 <= i <= |reg|
      invariant Grouped(m, reg[..i])
    {
      GroupStep(reg, i, m);
      var e := reg[i].1;
      m := m[e.feeder := (if e.feeder in m then m[e.feeder] else []) + [e.dtr]];
      i := i + 1;
    }
    assert reg[..i] == reg;
    assert Grouped(m, reg);
  }

  /** m holds, under each feeder of the entries seen, that feeder's transformers, and nothing else. */
  ghost predicate Grouped(m: map<string, seq<string>>, seen: Registry)
  {
    (forall f :: f in m <==> f in Feeders(seen)) &&
    (forall f :: f in m ==> m[f] == DtrsOf(seen, f))
  }

  /** One turn of the grouping loop keeps the map equal to the grouping of the
      entries seen so far. */
  lemma GroupStep(reg: Registry, i: nat, m: map<string, seq<string>>)
    requires i < |reg| && Grouped(m, reg[..i])
    ensures var e := reg[i].1;
      Grouped(m[e.feeder := (if e.feeder in m then m[e.feeder] else []) + [e.dtr]], reg[..i + 1])
  {
    var e := reg[i].1;
    var m' := m[e.feeder := (if e.feeder in m then m[e.feeder] else []) + [e.dtr]];
    FeedersSnoc(reg, i);
    NotGroupedMeansNone(reg[..i], e.feeder);
    forall f | f in m'
      ensures m'[f] == DtrsOf(reg[..i + 1], f)
    {
      DtrsOfSnoc(reg, i, f);
    }
  }

  /** One more entry adds its feeder at the end of the feeders. */
  lemma FeedersSnoc(reg: Registry, i: nat)
    requires i < |reg|
    ensures Feeders(reg[..i + 1]) == Feeders(reg[..i]) + [reg[i].1.feeder]
  {
  }

  /** One more entry adds its transformer at the end of its feeder's list. */
  lemma DtrsOfSnoc(reg: Registry, i: nat, f: string)
    requires i < |reg|
    ensures DtrsOf(reg[..i + 1], f) == DtrsOf(reg[..i], f) + (if reg[i].1.feeder == f then [reg[i].1.dtr] else [])
  {
    assert reg[..i + 1][..i] == reg[..i];
  }

  /** A feeder no entry has has no transformers. */
  lemma {:induction false} NotGroupedMeansNone(reg: Registry, f: string)
    ensures f !in Feeders(reg) ==> DtrsOf(reg, f) == []
  {
    if reg != [] && f !in Feeders(reg) {
      var init := reg[..|reg| - 1];
      assert Feeders(init) == Feeders(reg)[..|reg| - 1];
      NotGroupedMeansNone(init, f);
    }
  }

  /** Every feeder the first drop-down offers has at least one transformer for the second. */
  lemma OfferedFeederHasDtrs(reg: Registry, f: string)
    requires f in FeederOptions(reg)
    ensures DtrsOf(reg, f) != []
  {
    var i :| 0 <= i < |reg| && Feeders(reg)[i] == f;
    assert reg[i].1.dtr in DtrsOf(reg, f);
  }

  /** Lines 60-65: on a well-formed registry, any feeder offered and any
      transformer then offered (sorted) build a key that is present, and it
      names the entry of exactly that feeder and transformer: line 65 cannot
      raise KeyError. */
  lemma ChosenKeyPresent(reg: Registry, feeder: string, dtr: string)
    requires WellFormed(reg)
    requires feeder in FeederOptions(reg)
    requires dtr in Sort(DtrsOf(reg, feeder))
    ensures Lookup(reg, Key(feeder, dtr)).Some?
    ensures Lookup(reg, Key(feeder, dtr)).value.feeder == feeder
    ensures Lookup(reg, Key(feeder, dtr)).value.dtr == dtr
  {
    assert dtr in multiset(Sort(DtrsOf(reg, feeder)));
    assert dtr in DtrsOf(reg, feeder);
    var i :| 0 <= i < |reg| && reg[i].1.feeder == feeder && reg[i].1.dtr == dtr;
    LookupEntry(reg, i);
  }

  /** The data the page shows: the master sheet as read and filtered, the three
      outage-workbook sheets, and the five KPIs. */
  datatype Report = Report(
    masterAll: Table,
    master: Table,
    outage: Table,
    untagged: Table,
    wronglyMapped: Table,
    kpis: SheetKpis)

  /** Lines 64-80, with `pd.read_excel(file, sheet_name=sheet)` as the parameter
      `read` (None where the read raises); the first step that raises is the error. */
  function Run(reg: Registry, feeder: string, dtr: string,
               read: (string, string) -> Option<Table>): Result<Report, Error>
  {
    match Lookup(reg, Key(feeder, dtr))
    case None => Failure(MissingKey(Key(feeder, dtr)))
    case Some(d) =>
      match read(d.masterFile, d.masterSheet)
      case None => Failure(LoadFailed(d.masterFile, d.masterSheet))
      case Some(masterAll) =>
        match ParseInt(d.dtr)
        case None => Failure(NotAnInteger(d.dtr))
        case Some(dtrCode) =>
          match ParseInt(d.feeder)
          case None => Failure(NotAnInteger(d.feeder))
          case Some(feederCode) =>
            Measure(d, masterAll, ScopeRows(masterAll, dtrCode, feederCode), read)
  }

  /** Lines 71-80: the three outage-workbook reads, then the counts. */
  function Measure(d: Entry, masterAll: Table, master: Table,
                   read: (string, string) -> Option<Table>): Result<Report, Error>
  {
    match read(d.outageFile, d.outageSheet)
    case None => Failure(LoadFailed(d.outageFile, d.outageSheet))
    case Some(outage) =>
      match read(d.outageFile, d.untaggedSheet)
      case None => Failure(LoadFailed(d.outageFile, d.untaggedSheet))
      case Some(untagged) =>
        match read(d.outageFile, d.wronglyMappedSheet)
        case None => Failure(LoadFailed(d.outageFile, d.wronglyMappedSheet))
        case Some(wronglyMapped) =>
          Success(Report(masterAll, master, outage, untagged, wronglyMapped,
                         CountKpis(master, outage, untagged, wronglyMapped)))
  }

  /** Whatever the registry, a page that is shown has the master filtered to the
      entry's transformer and feeder codes, KPI 1 counting those rows (so no more
      than the sheet has), KPIs 2 to 4 the three sheets' rows, and KPI 5 = KPI 2 + KPI 4. */
  lemma RunReport(reg: Registry, feeder: string, dtr: string, read: (string, string) -> Option<Table>)
    ensures var r := Run(reg, feeder, dtr, read);
      r.Success? ==>
        var d := Lookup(reg, Key(feeder, dtr)).value;
        var k := r.value.kpis;
        ParseInt(d.dtr).Some? && ParseInt(d.feeder).Some? &&
        read(d.masterFile, d.masterSheet) == Some(r.value.masterAll) &&
        IsSelection(r.value.master, r.value.masterAll, ScopeMask(ParseInt(d.dtr).value, ParseInt(d.feeder).value)) &&
        k.kpi1MasterTagged == |r.value.master| <= |r.value.masterAll| &&
        read(d.outageFile, d.outageSheet) == Some(r.value.outage) &&
        k.kpi2ConnectedOutage == |r.value.outage| &&
        read(d.outageFile, d.untaggedSheet) == Some(r.value.untagged) &&
        k.kpi3Untagged == |r.value.untagged| &&
        read(d.outageFile, d.wronglyMappedSheet) == Some(r.value.wronglyMapped) &&
        k.kpi4WronglyMapped == |r.value.wronglyMapped| &&
        k.kpi5TotalCorrected == k.kpi2ConnectedOutage + k.kpi4WronglyMapped
  {
  }

  /** Every entry's codes are text that `int` accepts. */
  predicate CodesParse(reg: Registry)
  {
    forall i :: 0 <= i < |reg| ==> ParseInt(reg[i].1.dtr).Some? && ParseInt(reg[i].1.feeder).Some?
  }

  /** The shipped registry is well formed and all its codes are integers. */
  lemma DtrInfoCodesParse()
    ensures WellFormed(DtrInfo) && CodesParse(DtrInfo)
  {
    DtrInfoWellFormed();
    forall i | 0 <= i < |DtrInfo|
      ensures ParseInt(DtrInfo[i].1.dtr).Some? && ParseInt(DtrInfo[i].1.feeder).Some?
    {
      var e := DtrInfo[i].1;
      assert AllDigits(e.dtr) && AllDigits(e.feeder);
    }
  }

  /** On a well-formed registry whose codes are integers (the shipped one is),
      any choice the drop-downs offer either shows a report for exactly the
      chosen pair or stops because a sheet cannot be read: neither KeyError nor
      ValueError can occur. */
  lemma OnlyLoadsCanFail(reg: Registry, feeder: string, dtr: string, read: (string, string) -> Option<Table>)
    requires WellFormed(reg) && CodesParse(reg)
    requires feeder in FeederOptions(reg)
    requires dtr in Sort(DtrsOf(reg, feeder))
    ensures var r := Run(reg, feeder, dtr, read);
      r.Failure? ==> r.error.LoadFailed?
    ensures var r := Run(reg, feeder, dtr, read);
      r.Success? ==>
        ParseInt(dtr).Some? && ParseInt(feeder).Some? &&
        forall x :: x in r.value.master <==>
          x in r.value.masterAll && x.dtrcode == ParseInt(dtr).value && x.feedercode == ParseInt(feeder).value
  {
    ChosenKeyPresent(reg, feeder, dtr);
    var k := Key(feeder, dtr);
    var d := Lookup(reg, k).value;
    var i :| 0 <= i < |reg| && reg[i] == (k, d);
    assert ParseInt(d.dtr).Some? && ParseInt(d.feeder).Some?;
    match read(d.masterFile, d.masterSheet)
    case None =>
    case Some(masterAll) =>
      var master := ScopeRows(masterAll, ParseInt(dtr).value, ParseInt(feeder).value);
      assert Run(reg, feeder, dtr, read) == Measure(d, masterAll, master, read);
      MeasureKeepsMaster(d, masterAll, master, read);
  }

  /** The loads after the master's can only fail as loads, and keep the filtered master. */
  lemma MeasureKeepsMaster(d: Entry, masterAll: Table, master: Table, read: (string, string) -> Option<Table>)
    ensures var r := Measure(d, masterAll, master, read);
      (r.Failure? ==> r.error.LoadFailed?) &&
      (r.Success? ==> r.value.masterAll == masterAll && r.value.master == master)
  {
  }
}
