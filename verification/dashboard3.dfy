/** The live-outage dashboard: the outage rows of the chosen transformer are
    split row by row (not as serial sets) into those tagged to it in the master
    and those not, and the loss compares row counts. */
module Dashboard3 {
  import opened Results
  import opened Seqs
  import opened Tables
  import opened Engine
  import opened Workbooks

  datatype Report = Report(
    selection: Selection,               // `master`, `dtr_data`, `int(dtr_code)`
    masterDtr: Table,
    metersMaster: set<string>,
    metersOutage: set<string>,
    currentlyConnected: Table,
    correctlyTagged: Table,
    notMapped: Table,
    totalTagged: nat,
    lossPct: real)

  /** `((total - correct) / total) * 100 if total > 0 else 0` on row counts, as an
      exact rational; negative when more outage rows match than the master has. */
  function LossPct(total: nat, correct: nat): (p: real)
    ensures total == 0 ==> p == 0.0
    ensures p <= 100.0
    ensures total > 0 ==> (0.0 <= p <==> correct <= total)
    ensures correct <= total ==> p == LossPercent(total - correct, total)
    ensures total > 0 ==> p * total as real == (total as real - correct as real) * 100.0
  {
    if total > 0 then
      var t := total as real;
      var q := (t - correct as real) / t;
      assert q * t == t - correct as real;
      assert (total - correct) as real == t - correct as real;
      q * 100.0
    else 0.0
  }

  /** Lines 34-43 on the selected tables. */
  function Analyse(s: Selection): Report
  {
    var masterDtr := DtrRows(s.master, s.dtr);
    var metersMaster := Serials(masterDtr);
    var correctlyTagged := Filter(s.dtrData, SerialInMask(metersMaster));
    var totalTagged := |masterDtr|;
    Report(s, masterDtr, metersMaster, Serials(s.dtrData), s.dtrData, correctlyTagged,
           Filter(s.dtrData, SerialNotInMask(metersMaster)), totalTagged,
           LossPct(totalTagged, |correctlyTagged|))
  }

  /** The page for the chosen feeder and transformer codes, or the KeyError or ValueError raised. */
  function Run(files: Files, feeder: string, dtrCode: string): (r: Result<Report, Error>)
    ensures r.Failure? <==> SelectFeeder(files, feeder, dtrCode).Failure?
    ensures r.Failure? ==> r.error == SelectFeeder(files, feeder, dtrCode).error
    ensures r.Success? ==> r.value.selection == SelectFeeder(files, feeder, dtrCode).value
    ensures r.Success? ==> r.value == Analyse(r.value.selection)
  {
    match SelectFeeder(files, feeder, dtrCode)
    case Failure(e) => Failure(e)
    case Success(s) => Success(Analyse(s))
  }

  /** The choices of the table radio button. */
  datatype TableKind = CurrentlyConnected | CorrectlyTagged | NotMapped

  /** Lines 127-132: the chosen table. */
  function DetailTable(r: Report, kind: TableKind): Table
  {
    match kind
    case CurrentlyConnected => r.currentlyConnected
    case CorrectlyTagged => r.correctlyTagged
    case NotMapped => r.notMapped
  }

  /** The mask behind each choice of the radio button: all outage rows, those
      whose serial is tagged to the transformer, those whose serial is not. */
  function TableMask(r: Report, kind: TableKind): Row -> bool
  {
    match kind
    case CurrentlyConnected => (x: Row) => true
    case CorrectlyTagged => SerialInMask(r.metersMaster)
    case NotMapped => SerialNotInMask(r.metersMaster)
  }

  /** Each table the radio button offers is an order-preserving selection of the
      outage rows by its mask; "Currently Connected" is the outage sheet itself. */
  lemma DetailTableRows(s: Selection, kind: TableKind)
    ensures var r := Analyse(s);
      IsSelection(DetailTable(r, kind), s.dtrData, TableMask(r, kind)) &&
      (forall x :: x in DetailTable(r, kind) <==> x in s.dtrData && TableMask(r, kind)(x)) &&
      (kind == CurrentlyConnected ==> DetailTable(r, kind) == s.dtrData)
  {
    var r := Analyse(s);
    FilterIsSelection(s.dtrData, TableMask(r, kind));
    if kind == CurrentlyConnected {
      FilterKeepsAll(s.dtrData, TableMask(r, kind));
    }
  }

  /** Any choice offered on the loaded workbooks yields a page. */
  lemma OfferedChoicesSucceed(read: string -> Table, feeder: string, dtrCode: string)
    requires feeder in Keys(LoadData(read))
    requires dtrCode in DtrOptions(Lookup(LoadData(read), feeder).value)
    ensures Run(LoadData(read), feeder, dtrCode).Success?
  {
    Workbooks.OfferedChoicesSucceed(read, feeder, dtrCode);
  }

  /** `master_dtr` keeps exactly the master rows whose `dtrcode` is the chosen code, in order. */
  lemma MasterDtrIsDtrRows(s: Selection)
    ensures var r := Analyse(s);
      IsSelection(r.masterDtr, s.master, DtrMask(s.dtr)) &&
      forall x :: x in r.masterDtr <==> x in s.master && x.dtrcode == s.dtr
  {
  }

  /** Correctly tagged and not mapped are complementary, order-preserving parts of
      the outage rows: the first holds every row whose serial the master tags to the
      transformer, the second every other row, and the row counts add up. */
  lemma OutageRowsSplit(s: Selection)
    ensures var r := Analyse(s);
      Interleaves(r.correctlyTagged, r.notMapped, r.currentlyConnected) &&
      |r.correctlyTagged| + |r.notMapped| == |r.currentlyConnected| &&
      (forall x :: x in r.correctlyTagged <==> x in s.dtrData && x.serial in r.metersMaster) &&
      (forall x :: x in r.notMapped <==> x in s.dtrData && x.serial !in r.metersMaster)
  {
    var r := Analyse(s);
    SerialSplit(s.dtrData, r.metersMaster);
  }

  /** The tagged total counts rows, so it is at least the number of distinct tagged serials. */
  lemma TotalTaggedCountsRows(s: Selection)
    ensures var r := Analyse(s);
      r.totalTagged == |r.masterDtr| && |r.metersMaster| <= r.totalTagged
  {
  }

  /** The loss is 0 with nothing tagged and never above 100; it is at least 0
      exactly when no more outage rows match than the master has rows. */
  lemma LossPctBounds(s: Selection)
    ensures var r := Analyse(s);
      (r.totalTagged == 0 ==> r.lossPct == 0.0) &&
      r.lossPct <= 100.0 &&
      (r.totalTagged > 0 ==> (0.0 <= r.lossPct <==> |r.correctlyTagged| <= r.totalTagged))
  {
  }

  /** When no two outage rows share a serial, each matching row is a distinct
      tagged serial, so the loss lies between 0 and 100. */
  lemma LossNonNegativeOnDistinctOutage(s: Selection)
    requires DistinctSerials(s.dtrData)
    ensures var r := Analyse(s);
      |r.correctlyTagged| <= |r.metersMaster| && 0.0 <= r.lossPct <= 100.0
  {
    var r := Analyse(s);
    FilterDistinct(s.dtrData, SerialInMask(r.metersMaster));
    DistinctSerialsCount(r.correctlyTagged);
    SerialsMonotone(r.correctlyTagged, s.dtrData);
    assert Serials(r.correctlyTagged) <= r.metersMaster;
    SubsetCard(Serials(r.correctlyTagged), r.metersMaster);
  }

  /** One master row and the same serial twice in the outage sheet: two rows
      match against a tagged total of one, and the loss is -100 percent. */
  lemma RepeatedOutageRowGivesNegativeLoss()
    ensures var row := Row("A1", 57, 7088, []);
      Analyse(Selection([row], [row, row], 57)).lossPct == -100.0
  {
    var row := Row("A1", 57, 7088, []);
    FilterKeepsAll([row], DtrMask(57));
    assert Serials([row]) == {"A1"};
    FilterKeepsAll([row, row], SerialInMask({"A1"}));
    assert LossPct(1, 2) == -100.0;
  }
}
