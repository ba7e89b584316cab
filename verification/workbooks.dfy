/** The two-feeder workbook dictionary of the multi-transformer dashboards
    (`load_data` in dashboard.py, dashboard2.py and dashboard3.py) and the
    lookups that pick a feeder, then a transformer, out of it. */
module Workbooks {
  import opened Results
  import opened Seqs
  import opened Text
  import opened Tables

  /** `files`: each feeder code mapped to its sheets, in insertion order. */
  type Files = seq<(string, Book)>

  /** `load_data()`, with `pd.read_excel` on a file name as the parameter `read`. */
  function LoadData(read: string -> Table): (files: Files)
    ensures Keys(files) == ["7088", "15631"]
    ensures Keys(files[0].1) == ["master", "57", "32", "86"]
    ensures Keys(files[1].1) == ["master", "34"]
  {
    [ ("7088", [ ("master", read("Master_7088.xlsx")),
                 ("57", read("7088-57.xlsx")),
                 ("32", read("7088-32.xlsx")),
                 ("86", read("7088-86.xlsx")) ]),
      ("15631", [ ("master", read("Master_Feeder_15631.xlsx")),
                  ("34", read("15631-34.xlsx")) ]) ]
  }

  /** `files[feeder]`, then `files[feeder]['master']`, `files[feeder][dtr_code]`
      and `int(dtr_code)`, failing at the first that raises. */
  function SelectFeeder(files: Files, feeder: string, dtrCode: string): (r: Result<Selection, Error>)
    ensures Lookup(files, feeder).None? ==> r == Failure(MissingKey(feeder))
    ensures Lookup(files, feeder).Some? ==> r == SelectTables(Lookup(files, feeder).value, dtrCode)
  {
    match Lookup(files, feeder)
    case None => Failure(MissingKey(feeder))
    case Some(book) => SelectTables(book, dtrCode)
  }

  /** The transformer codes of the workbook are digit strings that print back unchanged. */
  lemma CodeRoundTrip(code: string, n: nat)
    requires (code, n) in {("57", 57), ("32", 32), ("86", 86), ("34", 34)}
    ensures ParseInt(code) == Some(n)
    ensures IntToString(n) == code
  {
    assert AllDigits(code);
    assert code[..1] == [code[0]];
    assert DigitsValue(code[..1]) == code[0] as int - '0' as int;
    assert NatToString(n / 10) == [code[0]];
  }

  /** Every feeder the first drop-down offers, with every transformer the second
      one then offers, selects tables without a KeyError and a code that `int`
      accepts and that prints back as the same text: no choice a user can make
      raises. */
  lemma OfferedChoicesSucceed(read: string -> Table, feeder: string, dtrCode: string)
    requires feeder in Keys(LoadData(read))
    requires dtrCode in DtrOptions(Lookup(LoadData(read), feeder).value)
    ensures var r := SelectFeeder(LoadData(read), feeder, dtrCode);
      r.Success? && IntToString(r.value.dtr) == dtrCode
  {
    var files := LoadData(read);
    assert UniqueKeys(files);
    var i := if feeder == "7088" then 0 else 1;
    LookupEntry(files, i);
    var book := files[i].1;
    assert dtrCode in Keys(book) && dtrCode != "master";
    var j :| 0 <= j < |Keys(book)| && Keys(book)[j] == dtrCode;
    assert dtrCode == book[j].0;
    var n: nat := if dtrCode == "57" then 57 else if dtrCode == "32" then 32
                  else if dtrCode == "86" then 86 else 34;
    CodeRoundTrip(dtrCode, n);
    SelectionSucceeds(files, feeder, book, dtrCode, n);
  }

  /** A feeder and a transformer that are both keys, with a code that parses, select tables. */
  lemma SelectionSucceeds(files: Files, feeder: string, book: Book, dtrCode: string, n: int)
    requires Lookup(files, feeder) == Some(book)
    requires "master" in Keys(book) && dtrCode in Keys(book)
    requires ParseInt(dtrCode) == Some(n)
    ensures var r := SelectFeeder(files, feeder, dtrCode);
      r.Success? && r.value.dtr == n
  {
  }
}
