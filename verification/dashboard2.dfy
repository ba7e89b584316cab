/** The feeder/transformer tagging dashboard with five KPI cards and a loss
    percentage: the transformer is filtered on `dtrcode` only, and the serials
    are compared as loaded. */
module Dashboard2 {
  import opened Results
  import opened Seqs
  import opened Tables
  import opened Engine
  import opened Workbooks

  datatype Report = Report(
    selection: Selection,               // `master`, `dtr_data`, `int(dtr_code)`
    masterDtr: Table,
    feederCustomers: set<string>,
    dtrCustomersMaster: set<string>,
    dtrCustomersOutage: set<string>,
    correctlyTagged: set<string>,
    notMapped: set<string>,
    otherFeederCustomers: set<string>,
    currentlyConnected: set<string>,
    totalTagged: nat,
    lossPct: real)

  /** `(1 - correct/total)*100 if total > 0 else 0`, as an exact rational: the
      share of the tagged serials that the outage data does not confirm. */
  function LossPct(correct: nat, total: nat): (p: real)
    ensures total == 0 ==> p == 0.0
    ensures correct <= total ==> p == LossPercent(total - correct, total)
    ensures correct <= total ==> 0.0 <= p <= 100.0
  {
    if total > 0 then
      ComplementShare(correct, total);
      (1.0 - correct as real / total as real) * 100.0
    else 0.0
  }

  /** One minus the confirmed share is the unconfirmed share. */
  lemma ComplementShare(correct: nat, total: nat)
    requires total > 0
    ensures correct <= total ==>
      (1.0 - correct as real / total as real) * 100.0 == LossPercent(total - correct, total)
  {
    var q := correct as real / total as real;
    assert q * total as real == correct as real;
    if correct <= total {
      var t := total as real;
      var w := LossPercent(total - correct, total);
      assert w * t == (total - correct) as real * 100.0;
      assert (total - correct) as real == t - correct as real;
      calc {
        ((1.0 - q) * 100.0) * t;
        100.0 * t - 100.0 * (q * t);
        100.0 * t - 100.0 * correct as real;
        w * t;
      }
      CancelFactor((1.0 - q) * 100.0, w, t);
    }
  }

  /** A non-zero factor cancels. */
  lemma CancelFactor(a: real, b: real, t: real)
    requires t != 0.0 && a * t == b * t
    ensures a == b
  {
    assert (a - b) * t == 0.0;
  }

  /** Lines 31-43 on the selected tables. */
  function Analyse(s: Selection): Report
  {
    var masterDtr := DtrRows(s.master, s.dtr);
    var feederCustomers := Serials(s.master);
    var dtrCustomersMaster := Serials(masterDtr);
    var dtrCustomersOutage := Serials(s.dtrData);
    var correctlyTagged := dtrCustomersOutage * dtrCustomersMaster;
    var totalTagged := |dtrCustomersMaster|;
    Report(s, masterDtr, feederCustomers, dtrCustomersMaster, dtrCustomersOutage,
           correctlyTagged, dtrCustomersOutage - dtrCustomersMaster,
           feederCustomers - dtrCustomersMaster, dtrCustomersOutage * dtrCustomersMaster,
           totalTagged, LossPct(|correctlyTagged|, totalTagged))
  }

  /** The page for the chosen feeder and transformer codes; a KeyError or a
      ValueError on the way is the error. */
  function Run(files: Files, feeder: string, dtrCode: string): (r: Result<Report, Error>)
    ensures r.Failure? <==> SelectFeeder(files, feeder, dtrCode).Failure?
    ensures r.Failure? ==> r.error == SelectFeeder(files, feeder, dtrCode).error
    ensures r.Success? ==> r.value.selection == SelectFeeder(files, feeder, dtrCode).value
    ensures r.Success? ==> r.value == Analyse(r.value.selection)
  {
    match SelectFeeder(files, feeder, dtrCode)
    case Failure(e) => Failure(e)
    case Success(s) => Success(Analyse(s))
  }

  /** The choices of the detail radio button. */
  datatype DetailKind = CorrectlyTagged | NotMapped | CurrentlyConnected | OtherFeederCustomers

  /** Lines 86-93: the rows of the chosen category's source table. */
  function DetailTable(r: Report, kind: DetailKind): Table
  {
    match kind
    case CorrectlyTagged => SerialRows(r.selection.dtrData, r.correctlyTagged)
    case NotMapped => SerialRows(r.selection.dtrData, r.notMapped)
    case CurrentlyConnected => SerialRows(r.masterDtr, r.currentlyConnected)
    case OtherFeederCustomers => SerialRows(r.selection.master, r.otherFeederCustomers)
  }

  /** Any choice offered on the loaded workbooks yields a page. */
  lemma OfferedChoicesSucceed(read: string -> Table, feeder: string, dtrCode: string)
    requires feeder in Keys(LoadData(read))
    requires dtrCode in DtrOptions(Lookup(LoadData(read), feeder).value)
    ensures Run(LoadData(read), feeder, dtrCode).Success?
  {
    Workbooks.OfferedChoicesSucceed(read, feeder, dtrCode);
  }

  /** What each customer set holds, serial by serial: correctly tagged are the
      outage serials the master lists under the chosen transformer, not mapped the
      other outage serials, other-feeder customers the feeder's serials the master
      does not list under that transformer. */
  lemma SetsExact(s: Selection, v: string)
    ensures var r := Analyse(s);
      var seen := exists x :: x in s.dtrData && x.serial == v;
      var tagged := exists x :: x in s.master && x.dtrcode == s.dtr && x.serial == v;
      var onFeeder := exists x :: x in s.master && x.serial == v;
      (v in r.correctlyTagged <==> seen && tagged) &&
      (v in r.notMapped <==> seen && !tagged) &&
      (v in r.otherFeederCustomers <==> onFeeder && !tagged)
  {
    MasterDtrIsDtrRows(s);
  }

  /** `master_dtr` keeps exactly the master rows whose `dtrcode` is the chosen code, in
      order, whatever their feeder. */
  lemma MasterDtrIsDtrRows(s: Selection)
    ensures var r := Analyse(s);
      IsSelection(r.masterDtr, s.master, DtrMask(s.dtr)) &&
      forall x :: x in r.masterDtr <==> x in s.master && x.dtrcode == s.dtr
  {
  }

  /** Correctly tagged and not mapped split the outage serials; the other-feeder
      customers are the feeder's serials not tagged to the transformer; currently
      connected is the same set as correctly tagged. */
  lemma CustomerSets(s: Selection)
    ensures var r := Analyse(s);
      r.correctlyTagged + r.notMapped == r.dtrCustomersOutage &&
      r.correctlyTagged !! r.notMapped &&
      r.otherFeederCustomers <= r.feederCustomers &&
      r.otherFeederCustomers !! r.dtrCustomersMaster &&
      r.currentlyConnected == r.correctlyTagged
  {
  }

  /** The loss is 0 with nothing tagged and otherwise the untagged share of the
      tagged serials, in percent: it lies between 0 and 100. */
  lemma LossPctRange(s: Selection)
    ensures var r := Analyse(s);
      (r.totalTagged == 0 ==> r.lossPct == 0.0) &&
      r.lossPct == LossPercent(|r.dtrCustomersMaster - r.dtrCustomersOutage|, r.totalTagged) &&
      0.0 <= r.lossPct <= 100.0
  {
    var r := Analyse(s);
    var k := TaggingCounts(r.dtrCustomersMaster, r.dtrCustomersOutage);
    assert |r.correctlyTagged| + |r.dtrCustomersMaster - r.dtrCustomersOutage| == r.totalTagged;
  }

  /** Each detail table is the rows of its source table whose serial is in the
      chosen set, in their original order. */
  lemma DetailTableRows(s: Selection, kind: DetailKind)
    ensures var r := Analyse(s);
      var source := match kind
        case CorrectlyTagged => s.dtrData
        case NotMapped => s.dtrData
        case CurrentlyConnected => r.masterDtr
        case OtherFeederCustomers => s.master;
      var ids := match kind
        case CorrectlyTagged => r.correctlyTagged
        case NotMapped => r.notMapped
        case CurrentlyConnected => r.currentlyConnected
        case OtherFeederCustomers => r.otherFeederCustomers;
      IsSelection(DetailTable(r, kind), source, SerialInMask(ids)) &&
      forall x :: x in DetailTable(r, kind) <==> x in source && x.serial in ids
  {
  }
}
