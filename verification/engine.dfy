/** The reconciliation steps that recur, with the same code, in several of the
    single-transformer scripts: the master-versus-outage counts, the loss
    percentage, the same-feeder-other-transformer rows and the detail split. */
module Engine {
  import opened Seqs
  import opened Tables

  /** KPIs 1 to 3: distinct outage serials, those also tagged in the master for
      the transformer, and the master-tagged ones missing from the outage sheet. */
  datatype Tagging = Tagging(connected: nat, masterOutage: nat, untagged: nat)

  /** `len(outage_meters)`, `len(master_meters & outage_meters)`, `len(master_meters - outage_meters)`. */
  function TaggingCounts(masterMeters: set<string>, outageMeters: set<string>): (k: Tagging)
    ensures k.connected == |outageMeters|
    ensures k.masterOutage == |masterMeters * outageMeters|
    ensures k.untagged == |masterMeters - outageMeters|
    ensures k.masterOutage + k.untagged == |masterMeters|
    ensures k.masterOutage <= k.connected
    ensures k.untagged <= |masterMeters|
  {
    SubsetCard(masterMeters * outageMeters, outageMeters);
    Tagging(|outageMeters|, |masterMeters * outageMeters|, |masterMeters - outageMeters|)
  }

  /** `(untagged / total * 100) if total > 0 else 0`, as an exact rational. */
  function LossPercent(untagged: nat, total: nat): (p: real)
    ensures total == 0 ==> p == 0.0
    ensures total > 0 ==> p == untagged as real / total as real * 100.0
    ensures total > 0 ==> p * total as real == untagged as real * 100.0
    ensures untagged <= total ==> 0.0 <= p <= 100.0
  {
    if total > 0 then
      var q := untagged as real / total as real;
      assert q * total as real == untagged as real;
      q * 100.0
    else 0.0
  }

  /** `(Feedercode == feeder) & (dtrcode != dtr) & serial.isin(ids)`. */
  function FeederOthersMask(dtr: int, feeder: int, ids: set<string>): Row -> bool
  {
    (x: Row) => x.feedercode == feeder && x.dtrcode != dtr && x.serial in ids
  }

  /** The master rows on the feeder, tagged to another transformer, whose serial is in ids. */
  function FeederOthers(master: Table, dtr: int, feeder: int, ids: set<string>): (rows: Table)
    ensures IsSelection(rows, master, FeederOthersMask(dtr, feeder, ids))
    ensures forall x :: x in rows <==> x in master && x.feedercode == feeder && x.dtrcode != dtr && x.serial in ids
    ensures Serials(rows) <= ids
    ensures |Serials(rows)| <= |ids|
  {
    FilterIsSelection(master, FeederOthersMask(dtr, feeder, ids));
    var rows := Filter(master, FeederOthersMask(dtr, feeder, ids));
    SubsetCard(Serials(rows), ids);
    rows
  }

  /** `(Feedercode == feeder) & (dtrcode != dtr)`. */
  function OtherDtrMask(dtr: int, feeder: int): Row -> bool
  {
    (x: Row) => x.feedercode == feeder && x.dtrcode != dtr
  }

  /** The distinct serials of the master rows on the feeder that are tagged to another transformer. */
  function OtherDtrMeters(master: Table, dtr: int, feeder: int): (r: set<string>)
    ensures forall x :: x in master && x.feedercode == feeder && x.dtrcode != dtr ==> x.serial in r
    ensures forall v :: v in r ==>
      exists x :: x in master && x.feedercode == feeder && x.dtrcode != dtr && x.serial == v
  {
    Serials(Filter(master, OtherDtrMask(dtr, feeder)))
  }

  /** The distinct serials of the same-feeder-other-transformer rows picked by the
      seen-but-untagged serials are the seen serials that some other transformer of
      the feeder carries, less the tagged ones. */
  lemma FeederOthersSerials(master: Table, dtr: int, feeder: int, seen: set<string>, tagged: set<string>)
    ensures Serials(FeederOthers(master, dtr, feeder, seen - tagged)) ==
            (seen * OtherDtrMeters(master, dtr, feeder)) - tagged
  {
    var rows := FeederOthers(master, dtr, feeder, seen - tagged);
    var other := OtherDtrMeters(master, dtr, feeder);
    forall v | v in Serials(rows)
      ensures v in (seen * other) - tagged
    {
      var x :| x in rows && x.serial == v;
      assert x in master && x.feedercode == feeder && x.dtrcode != dtr;
    }
    forall v | v in (seen * other) - tagged
      ensures v in Serials(rows)
    {
      var x :| x in master && x.feedercode == feeder && x.dtrcode != dtr && x.serial == v;
      assert x in rows;
    }
  }

  /** On a master sheet without repeated serials there is one wrongly mapped row
      per wrongly mapped serial: the row count is the number of seen serials that
      another transformer of the feeder carries, less the tagged ones. */
  lemma FeederOthersCount(master: Table, dtr: int, feeder: int, seen: set<string>, tagged: set<string>)
    requires DistinctSerials(master)
    ensures |FeederOthers(master, dtr, feeder, seen - tagged)| ==
            |Serials(FeederOthers(master, dtr, feeder, seen - tagged))| ==
            |(seen * OtherDtrMeters(master, dtr, feeder)) - tagged|
  {
    FilterDistinct(master, FeederOthersMask(dtr, feeder, seen - tagged));
    DistinctSerialsCount(FeederOthers(master, dtr, feeder, seen - tagged));
    FeederOthersSerials(master, dtr, feeder, seen, tagged);
  }

  /** On a master sheet without repeated serials no serial is both tagged to the
      transformer and carried by another transformer of the same feeder. */
  lemma TaggedNotOtherDtr(master: Table, dtr: int, feeder: int)
    requires DistinctSerials(master)
    ensures Serials(ScopeRows(master, dtr, feeder)) !! OtherDtrMeters(master, dtr, feeder)
  {
    forall v | v in Serials(ScopeRows(master, dtr, feeder)) && v in OtherDtrMeters(master, dtr, feeder)
      ensures false
    {
      var x :| x in ScopeRows(master, dtr, feeder) && x.serial == v;
      var y :| y in master && y.feedercode == feeder && y.dtrcode != dtr && y.serial == v;
      DistinctSameSerial(master, x, y);
    }
  }

  /** `master_dtr[serial.isin(outage_meters)]` and `master_dtr[~serial.isin(outage_meters)]`. */
  datatype Split = Split(tagged: Table, untagged: Table)

  function DetailSplit(masterDtr: Table, outageMeters: set<string>): (d: Split)
    ensures Interleaves(d.tagged, d.untagged, masterDtr)
    ensures |d.tagged| + |d.untagged| == |masterDtr|
    ensures forall x :: x in d.tagged <==> x in masterDtr && x.serial in outageMeters
    ensures forall x :: x in d.untagged <==> x in masterDtr && x.serial !in outageMeters
  {
    SerialSplit(masterDtr, outageMeters);
    Split(Filter(masterDtr, SerialInMask(outageMeters)), Filter(masterDtr, SerialNotInMask(outageMeters)))
  }
}
