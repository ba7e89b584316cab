/** The first feeder/transformer KPI dashboard: transformer-only filter, three
    customer sets and the tagged total, with serials compared as loaded. */
module Dashboard {
  import opened Results
  import opened Seqs
  import opened Tables
  import opened Workbooks

  datatype Report = Report(
    selection: Selection,               // `master`, `dtr_data`, `int(dtr_code)`
    masterDtr: Table,
    feederCustomers: set<string>,
    dtrCustomersMaster: set<string>,
    dtrCustomersOutage: set<string>,
    correctlyTagged: set<string>,
    notMapped: set<string>,
    otherFeederCustomers: set<string>,
    totalTagged: nat)

  /** Lines 34-43 on the selected tables. */
  function Analyse(s: Selection): Report
  {
    var masterDtr := DtrRows(s.master, s.dtr);
    var feederCustomers := Serials(s.master);
    var dtrCustomersMaster := Serials(masterDtr);
    var dtrCustomersOutage := Serials(s.dtrData);
    Report(s, masterDtr, feederCustomers, dtrCustomersMaster, dtrCustomersOutage,
           dtrCustomersOutage * dtrCustomersMaster, dtrCustomersOutage - dtrCustomersMaster,
           feederCustomers - dtrCustomersMaster, |dtrCustomersMaster|)
  }

  /** The page for the chosen feeder and transformer codes, or the KeyError or ValueError raised. */
  function Run(files: Files, feeder: string, dtrCode: string): (r: Result<Report, Error>)
    ensures r.Failure? <==> SelectFeeder(files, feeder, dtrCode).Failure?
    ensures r.Failure? ==> r.error == SelectFeeder(files, feeder, dtrCode).error
    ensures r.Success? ==> r.value.selection == SelectFeeder(files, feeder, dtrCode).value
    ensures r.Success? ==> r.value == Analyse(r.value.selection)
  {
    match SelectFeeder(files, feeder, dtrCode)
    case Failure(e) => Failure(e)
    case Success(s) => Success(Analyse(s))
  }

  /** The choices of the detail radio button. */
  datatype DetailKind = CorrectlyTagged | NotMapped | OtherFeederCustomers

  /** Lines 72-77: the rows of the chosen category's source table. */
  function DetailTable(r: Report, kind: DetailKind): Table
  {
    match kind
    case CorrectlyTagged => SerialRows(r.selection.dtrData, r.correctlyTagged)
    case NotMapped => SerialRows(r.selection.dtrData, r.notMapped)
    case OtherFeederCustomers => SerialRows(r.selection.master, r.otherFeederCustomers)
  }

  /** Any choice offered on the loaded workbooks yields a page. */
  lemma OfferedChoicesSucceed(read: string -> Table, feeder: string, dtrCode: string)
    requires feeder in Keys(LoadData(read))
    requires dtrCode in DtrOptions(Lookup(LoadData(read), feeder).value)
    ensures Run(LoadData(read), feeder, dtrCode).Success?
  {
    Workbooks.OfferedChoicesSucceed(read, feeder, dtrCode);
  }

  /** What each customer set holds, serial by serial: correctly tagged are the
      outage serials the master lists under the chosen transformer, not mapped the
      other outage serials, other-feeder customers the feeder's serials the master
      does not list under that transformer. */
  lemma SetsExact(s: Selection, v: string)
    ensures var r := Analyse(s);
      var seen := exists x :: x in s.dtrData && x.serial == v;
      var tagged := exists x :: x in s.master && x.dtrcode == s.dtr && x.serial == v;
      var onFeeder := exists x :: x in s.master && x.serial == v;
      (v in r.correctlyTagged <==> seen && tagged) &&
      (v in r.notMapped <==> seen && !tagged) &&
      (v in r.otherFeederCustomers <==> onFeeder && !tagged)
  {
    MasterDtrIsDtrRows(s);
  }

  /** `master_dtr` keeps exactly the master rows whose `dtrcode` is the chosen code, in order. */
  lemma MasterDtrIsDtrRows(s: Selection)
    ensures var r := Analyse(s);
      IsSelection(r.masterDtr, s.master, DtrMask(s.dtr)) &&
      forall x :: x in r.masterDtr <==> x in s.master && x.dtrcode == s.dtr
  {
  }

  /** Correctly tagged and not mapped split the outage serials in two. */
  lemma OutagePartition(s: Selection)
    ensures var r := Analyse(s);
      r.correctlyTagged + r.notMapped == r.dtrCustomersOutage &&
      r.correctlyTagged !! r.notMapped &&
      |r.correctlyTagged| + |r.notMapped| == |r.dtrCustomersOutage|
  {
    var o, m := Serials(s.dtrData), Serials(DtrRows(s.master, s.dtr));
    SplitBy(o, m);
  }

  /** The transformer's serials are among the feeder's, so the other-feeder
      customers and the tagged total add up to the feeder's distinct serials. */
  lemma OtherPlusTagged(s: Selection)
    ensures var r := Analyse(s);
      r.dtrCustomersMaster <= r.feederCustomers &&
      |r.otherFeederCustomers| + r.totalTagged == |r.feederCustomers|
  {
    var masterDtr := DtrRows(s.master, s.dtr);
    SerialsMonotone(masterDtr, s.master);
    RemoveSubset(Serials(s.master), Serials(masterDtr));
  }

  /** Each detail table is the rows of its source table whose serial is in the
      chosen set, in their original order. */
  lemma DetailTableRows(s: Selection, kind: DetailKind)
    ensures var r := Analyse(s);
      var source := if kind == OtherFeederCustomers then s.master else s.dtrData;
      var ids := match kind
        case CorrectlyTagged => r.correctlyTagged
        case NotMapped => r.notMapped
        case OtherFeederCustomers => r.otherFeederCustomers;
      IsSelection(DetailTable(r, kind), source, SerialInMask(ids)) &&
      forall x :: x in DetailTable(r, kind) <==> x in source && x.serial in ids
  {
  }
}
