/** The consumer tables the reconciliation scripts work on, and the operations
    on them that several scripts share: serial clean-up, the set of serials of a
    table, the row masks, and the selection of a feeder's tables by key. */
module Tables {
  import opened Results
  import opened Seqs
  import opened Text

  /** One row of a master or outage sheet: the meter serial, the transformer
      (`dtrcode`) and feeder (`Feedercode`) codes, and the other columns, which
      every operation passes through untouched. */
  datatype Row = Row(serial: string, dtrcode: int, feedercode: int, rest: seq<string>)

  type Table = seq<Row>

  /** Why a step fails: a missing dictionary key (KeyError), a key that is not
      an integer (ValueError from `int`), or a sheet that cannot be read. */
  datatype Error =
    | MissingKey(key: string)
    | NotAnInteger(text: string)
    | LoadFailed(file: string, sheet: string)

  /** Every serial of t is trimmed and upper-case. */
  predicate SerialsClean(t: Table)
  {
    forall x :: x in t ==> IsClean(x.serial)
  }

  /** The column overwrite `t['Meter_Serial_Number'] = ....str.strip().str.upper()`. */
  function CleanSerials(t: Table): (r: Table)
    ensures |r| == |t|
    ensures forall i :: 0 <= i < |t| ==> r[i] == t[i].(serial := Clean(t[i].serial))
    ensures SerialsClean(r)
  {
    seq(|t|, i requires 0 <= i < |t| => t[i].(serial := Clean(t[i].serial)))
  }

  /** Cleaning a table whose serials are already clean changes nothing. */
  lemma CleanSerialsOfClean(t: Table)
    requires SerialsClean(t)
    ensures CleanSerials(t) == t
  {
    forall i | 0 <= i < |t| ensures CleanSerials(t)[i] == t[i] {
      assert t[i] in t;
      CleanFixesClean(t[i].serial);
    }
  }

  /** Cleaning a table twice is cleaning it once. */
  lemma CleanSerialsIdempotent(t: Table)
    ensures CleanSerials(CleanSerials(t)) == CleanSerials(t)
  {
    CleanSerialsOfClean(CleanSerials(t));
  }

  /** `set(t['Meter_Serial_Number'])`: the distinct serials of t. */
  function Serials(t: Table): (r: set<string>)
    ensures forall x :: x in t ==> x.serial in r
    ensures forall v :: v in r ==> exists x :: x in t && x.serial == v
    ensures |r| <= |t|
  {
    if t == [] then {}
    else
      assert t == [t[0]] + t[1..];
      {t[0].serial} + Serials(t[1..])
  }

  /** A subset is no larger than its superset. */
  lemma SubsetCard(a: set<string>, b: set<string>)
    requires a <= b
    ensures |a| <= |b|
  {
    assert b == a + (b - a);
  }

  /** Two disjoint sets have as many elements together as apart. */
  lemma DisjointUnionCard(a: set<string>, b: set<string>)
    requires a !! b
    ensures |a + b| == |a| + |b|
  {
    assert (a + b) - a == b;
  }

  /** Intersecting with and removing b split a into two disjoint parts. */
  lemma SplitBy(a: set<string>, b: set<string>)
    ensures (a * b) + (a - b) == a && (a * b) !! (a - b)
    ensures |a * b| + |a - b| == |a|
  {
    DisjointUnionCard(a * b, a - b);
  }

  /** Removing a subset leaves the difference in size. */
  lemma RemoveSubset(a: set<string>, b: set<string>)
    requires b <= a
    ensures |a - b| + |b| == |a|
  {
    DisjointUnionCard(a - b, b);
    assert (a - b) + b == a;
  }

  /** The serials of a clean table are clean. */
  lemma SerialsOfClean(t: Table)
    requires SerialsClean(t)
    ensures forall v :: v in Serials(t) ==> IsClean(v)
  {
  }

  /** The rows of a sub-table have serials among those of the table. */
  lemma SerialsMonotone(r: Table, t: Table)
    requires forall x :: x in r ==> x in t
    ensures Serials(r) <= Serials(t)
  {
  }

  /** No two rows of t share a serial. */
  predicate DistinctSerials(t: Table)
  {
    t == [] || (t[0].serial !in Serials(t[1..]) && DistinctSerials(t[1..]))
  }

  /** A table whose rows have distinct serials has one serial per row. */
  lemma {:induction false} DistinctSerialsCount(t: Table)
    requires DistinctSerials(t)
    ensures |Serials(t)| == |t|
  {
    if t != [] {
      DistinctSerialsCount(t[1..]);
      assert Serials(t) == {t[0].serial} + Serials(t[1..]);
    }
  }

  /** Removing a set disjoint from c leaves the part of a inside c unchanged. */
  lemma MinusDisjoint(a: set<string>, b: set<string>, c: set<string>)
    requires b !! c
    ensures (a * c) - b == a * c
  {
  }

  /** In a table without repeated serials, two rows with the same serial are the same row. */
  lemma {:induction false} DistinctSameSerial(t: Table, x: Row, y: Row)
    requires DistinctSerials(t)
    requires x in t && y in t && x.serial == y.serial
    ensures x == y
  {
    if x != t[0] && y != t[0] {
      DistinctSameSerial(t[1..], x, y);
    }
  }

  /** Dropping rows keeps the serials distinct. */
  lemma {:induction false} FilterDistinct(t: Table, keep: Row -> bool)
    requires DistinctSerials(t)
    ensures DistinctSerials(Filter(t, keep))
  {
    if t != [] {
      var rest := Filter(t[1..], keep);
      FilterDistinct(t[1..], keep);
      if keep(t[0]) {
        var r := [t[0]] + rest;
        assert Filter(t, keep) == r;
        assert r[0] == t[0] && r[1..] == rest;
        SerialsMonotone(rest, t[1..]);
        assert t[0].serial !in Serials(rest);
      } else {
        assert Filter(t, keep) == rest;
      }
    }
  }

  /** `(t['dtrcode'] == dtr) & (t['Feedercode'] == feeder)`. */
  function ScopeMask(dtr: int, feeder: int): Row -> bool
  {
    (x: Row) => x.dtrcode == dtr && x.feedercode == feeder
  }

  /** `t['dtrcode'] == dtr`. */
  function DtrMask(dtr: int): Row -> bool
  {
    (x: Row) => x.dtrcode == dtr
  }

  /** `t['Meter_Serial_Number'].isin(ids)`. */
  function SerialInMask(ids: set<string>): Row -> bool
  {
    (x: Row) => x.serial in ids
  }

  /** `~t['Meter_Serial_Number'].isin(ids)`. */
  function SerialNotInMask(ids: set<string>): Row -> bool
  {
    (x: Row) => x.serial !in ids
  }

  /** The rows of t tagged to transformer dtr on feeder feeder, in order. */
  function ScopeRows(t: Table, dtr: int, feeder: int): (r: Table)
    ensures IsSelection(r, t, ScopeMask(dtr, feeder))
    ensures forall x :: x in r <==> x in t && x.dtrcode == dtr && x.feedercode == feeder
  {
    FilterIsSelection(t, ScopeMask(dtr, feeder));
    Filter(t, ScopeMask(dtr, feeder))
  }

  /** The rows of t tagged to transformer dtr, on whatever feeder, in order. */
  function DtrRows(t: Table, dtr: int): (r: Table)
    ensures IsSelection(r, t, DtrMask(dtr))
    ensures forall x :: x in r <==> x in t && x.dtrcode == dtr
  {
    FilterIsSelection(t, DtrMask(dtr));
    Filter(t, DtrMask(dtr))
  }

  /** `t[t['Meter_Serial_Number'].isin(ids)]`: the rows of t whose serial is in ids, in order. */
  function SerialRows(t: Table, ids: set<string>): (r: Table)
    ensures IsSelection(r, t, SerialInMask(ids))
    ensures forall x :: x in r <==> x in t && x.serial in ids
  {
    FilterIsSelection(t, SerialInMask(ids));
    Filter(t, SerialInMask(ids))
  }

  /** `t[t['Meter_Serial_Number'].isin(ids)]` and `t[~t['Meter_Serial_Number'].isin(ids)]`:
      the rows of t whose serial is in ids and those whose serial is not, as two
      interleaved parts of t. */
  lemma SerialSplit(t: Table, ids: set<string>)
    ensures Interleaves(Filter(t, SerialInMask(ids)), Filter(t, SerialNotInMask(ids)), t)
    ensures forall x :: x in Filter(t, SerialInMask(ids)) <==> x in t && x.serial in ids
    ensures forall x :: x in Filter(t, SerialNotInMask(ids)) <==> x in t && x.serial !in ids
    ensures |Filter(t, SerialInMask(ids))| + |Filter(t, SerialNotInMask(ids))| == |t|
  {
    FilterPartition(t, SerialInMask(ids), SerialNotInMask(ids));
    InterleavesCount(Filter(t, SerialInMask(ids)), Filter(t, SerialNotInMask(ids)), t);
  }

  /** The five sheet-driven KPIs of the combined dashboard. */
  datatype SheetKpis = SheetKpis(
    kpi1MasterTagged: nat,
    kpi2ConnectedOutage: nat,
    kpi3Untagged: nat,
    kpi4WronglyMapped: nat,
    kpi5TotalCorrected: nat)

  /** The KPIs as row counts of the filtered master and of the three outage-workbook sheets. */
  function CountKpis(master: Table, outage: Table, untagged: Table, wronglyMapped: Table): SheetKpis
  {
    SheetKpis(|master|, |outage|, |untagged|, |wronglyMapped|, |outage| + |wronglyMapped|)
  }

  /** The sheets of one feeder, keyed "master" and by transformer code, in insertion order. */
  type Book = seq<(string, Table)>

  /** `[d for d in files[feeder].keys() if d != "master"]`. */
  function DtrOptions(book: Book): (r: seq<string>)
    ensures forall k :: k in r <==> k in Keys(book) && k != "master"
    ensures Interleaves(r, Filter(Keys(book), k => k == "master"), Keys(book))
  {
    FilterPartition(Keys(book), k => k != "master", k => k == "master");
    Filter(Keys(book), k => k != "master")
  }

  /** The tables one transformer's analysis starts from: the feeder's master sheet,
      the transformer's outage sheet and the transformer code as an integer. */
  datatype Selection = Selection(master: Table, dtrData: Table, dtr: int)

  /** `master = files[feeder]['master']; dtr_data = files[feeder][dtr_code]` and
      `int(dtr_code)`, failing in that order. */
  function SelectTables(book: Book, dtrCode: string): (r: Result<Selection, Error>)
    ensures Lookup(book, "master").None? ==> r == Failure(MissingKey("master"))
    ensures Lookup(book, "master").Some? && Lookup(book, dtrCode).None? ==> r == Failure(MissingKey(dtrCode))
    ensures (Lookup(book, "master").Some? && Lookup(book, dtrCode).Some? && ParseInt(dtrCode).None?)
              ==> r == Failure(NotAnInteger(dtrCode))
    ensures r.Success? <==>
              Lookup(book, "master").Some? && Lookup(book, dtrCode).Some? && ParseInt(dtrCode).Some?
    ensures r.Success? ==>
              Lookup(book, "master") == Some(r.value.master) &&
              Lookup(book, dtrCode) == Some(r.value.dtrData) &&
              ParseInt(dtrCode) == Some(r.value.dtr)
  {
    match Lookup(book, "master")
    case None => Failure(MissingKey("master"))
    case Some(master) =>
      match Lookup(book, dtrCode)
      case None => Failure(MissingKey(dtrCode))
      case Some(dtrData) =>
        match ParseInt(dtrCode)
        case None => Failure(NotAnInteger(dtrCode))
        case Some(dtr) => Success(Selection(master, dtrData, dtr))
  }

  /** A transformer offered in the drop-down always has its sheet; only `int` can still fail. */
  lemma OfferedDtrHasSheet(book: Book, dtrCode: string)
    requires "master" in Keys(book)
    requires dtrCode in DtrOptions(book)
    ensures SelectTables(book, dtrCode).Success? || SelectTables(book, dtrCode) == Failure(NotAnInteger(dtrCode))
  {
  }
}
