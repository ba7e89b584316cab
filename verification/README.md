# DTR outage reconciliation, modelled in Dafny

The DTR_OUTAGES scripts check how well consumers are tagged to distribution
transformers (DTRs). A master sheet says which feeder (`Feedercode`) and which
transformer (`dtrcode`) every meter serial belongs to. An outage or live
extract lists the meters actually seen on one transformer. Ten scripts
reconcile the two, each in its own way:

- `dashboard_32dtr.py` and `dashboard5.py` clean the serials (strip, upper-case).
  They filter the master to one transformer on one feeder and count five KPIs
  over serial sets. They pick out the "wrongly mapped" master rows: same
  feeder, other transformer, serial seen but not tagged here.
  `dashboard_32dtr.py` also computes a loss percentage and two detail tables.
- `dashboard4.py` is the uncleaned variant of the same page. Its
  wrongly-mapped filter tests only the feeder.
- `checking57.py` and `checking32.py` are console diagnostics over serial sets.
- `dashboard.py`, `dashboard2.py` and `dashboard3.py` load a two-feeder
  workbook dictionary and let the user pick a feeder and a transformer. They
  filter the master on `dtrcode` only. `dashboard3.py` splits the outage
  *rows*, not the serial sets.
- `final_dashboard.py` is driven by a registry (`dtr_info`). It builds the
  drop-downs from it, looks up the chosen entry by key, loads four sheets and
  counts rows. `Checked_57_dash.py` is the same page hard-wired to 7088-57.

Project layout:

- Modules for the shared building blocks:
  - `Results`: Option and Result.
  - `Seqs`: the order-preserving `Filter`, interleavings, and insertion-ordered
    dictionaries as association lists.
  - `Text`: ASCII `strip`, `upper`, serial clean-up, `int()` and `str()`.
  - `Ordering`: Python's string order, `sorted(list)` and `sorted(set(...))`.
  - `Tables`: rows, cleaned tables, serial sets, the row masks and the
    selection of a feeder's sheets.
  - `Engine`: KPI 1-3, the loss percentage, same-feeder-other-transformer rows
    and the detail split.
  - `Workbooks`: `load_data`.
- One module per script. Each script's computation is a function from its
  loaded sheets to a `Report` datatype holding every intermediate the script
  names: `Reconcile`/`Analyse` for the fixed-transformer scripts, `Run` for
  the interactive ones.

The properties are lemmas about those reports:

- partition and interleaving laws;
- subset and disjointness facts;
- exactness of every row filter, in both directions, with order preserved
  through `IsSelection`;
- the KPI sum identities and loss bounds;
- idempotence of the clean-up;
- cross-script agreements:
  - dashboard4 = dashboard5 on clean sheets;
  - checking57 vs dashboard5;
  - checking32 vs dashboard_32dtr;
  - Checked_57_dash = final_dashboard for "7088-57".

The `final_dashboard.py` grouping loop (`feeder_to_dtr.setdefault(...).append(...)`)
is an imperative Dafny method with a loop invariant. It is proved against the
reference function `DtrsOf`.

Notes on the code's behaviour:

- **Wrongly mapped set.** `dashboard_32dtr.py:37` and `dashboard5.py:36` keep
  `outage_meters - master_meters` as the wrongly mapped set. There is no
  intersection with the other transformers' serials; the same-feeder/other-DTR
  test happens only in the row filter. `Engine.FeederOthersSerials` proves that
  the serials of those rows equal `(outage_meters ∩ other-transformer serials) − master_meters`.
  On a master sheet without repeated serials, KPI 4 is exactly the size of that set
  (`Engine.FeederOthersCount`).
- **Disjointness in `checking57.py`.** The sets `wrongly_mapped` and
  `correctly_tagged` are not always disjoint. A serial tagged to 57 and to
  another transformer of 7088 can be in both. `Checking57.TotalCorrectedIsDistinct`
  states disjointness only under that condition. On a master sheet without
  repeated serials the condition always holds, and `total_corrected` equals
  dashboard5's KPI 5 (`Checking57.TotalCorrectedIsKpi5`).
- **Empty serials** are not treated specially; the scripts do not do so.
- **Row counts in `dashboard3.py`.** Its loss counts rows (`dashboard3.py:40-43`).
  It can be negative when the outage sheet repeats a tagged serial:
  `Dashboard3.RepeatedOutageRowGivesNegativeLoss` exhibits -100%.

## Model

| member | source | states |
|---|---|---|
| Text.Strip | dashboard_32dtr.py:18-19 | `str.strip()` leaves neither end whitespace and never lengthens the text |
| Text.StripIsSlice | dashboard_32dtr.py:18-19 | the stripped serial is the contiguous slice of the raw one that starts after its leading whitespace |
| Text.StripDropsSpace | dashboard_32dtr.py:18-19 | everything `strip()` removes, before and after that slice, is whitespace |
| Text.Upper | dashboard_32dtr.py:18-19 | `str.upper()` keeps the length and upper-cases each character in place |
| Text.Clean | dashboard_32dtr.py:18-19 | a cleaned serial is trimmed and has no lower-case letter |
| Text.CleanFixesClean | dashboard_32dtr.py:18-19 | cleaning leaves an already clean serial unchanged |
| Text.CleanIdempotent | dashboard_32dtr.py:18-19 | cleaning twice equals cleaning once |
| Text.CleanIgnoresCase | dashboard_32dtr.py:18-19 | serials that differ only in letter case get the same key |
| Text.CleanIgnoresLeadingSpace | dashboard_32dtr.py:18-19 | a whitespace character before a serial does not change its key |
| Text.CleanIgnoresTrailingSpace | dashboard_32dtr.py:18-19 | a whitespace character after a serial does not change its key |
| Text.TrimStartUpper | dashboard_32dtr.py:18-19 | upper-casing commutes with removing leading whitespace |
| Text.TrimEndUpper | dashboard_32dtr.py:18-19 | upper-casing commutes with removing trailing whitespace |
| Text.ParseInt | dashboard2.py:31 | `int(text)` succeeds exactly on a non-empty run of digits with an optional sign; otherwise it is the ValueError case |
| Text.IntRoundTrip | dashboard2.py:31 | `int(str(n)) == n` for every integer |
| Ordering.Sort | final_dashboard.py:61 | `sorted(list)` is sorted in string order and is a permutation of its input |
| Ordering.SortedSetOf | final_dashboard.py:53 | `sorted(set(xs))` is strictly increasing (no duplicates) and holds exactly the elements of xs |
| Ordering.StrictlySortedUnique | final_dashboard.py:53 | two strictly sorted sequences with the same elements are equal, so `sorted(set(...))` is fully determined |
| Ordering.LexTotal | final_dashboard.py:53 | Python's string comparison orders any two different strings |
| Ordering.LexTransitive | final_dashboard.py:53 | Python's string comparison is transitive |
| Seqs.Filter | dashboard_32dtr.py:22 | a boolean-mask selection keeps exactly the rows satisfying the mask and is no longer than the table |
| Seqs.FilterIsSelection | dashboard_32dtr.py:22 | the selection is an order-preserving sub-sequence whose complement is exactly the rows failing the mask |
| Seqs.SelectionUnique | dashboard_32dtr.py:22 | any order-preserving selection by a mask is the mask's filter: the filter is determined by its defining property |
| Seqs.FilterMultiplicity | dashboard_32dtr.py:22 | a selection keeps every selected row as often as the table has it, and adds nothing |
| Seqs.FilterPartition | dashboard_32dtr.py:120-130 | a mask and its negation split a table into two interleaved parts |
| Seqs.InterleavesCount | dashboard_32dtr.py:120-130 | two interleaved parts together have the table's rows, counted with multiplicity |
| Seqs.FilterKeepsAll | dashboard3.py:40 | a mask true on every row keeps the whole table |
| Seqs.Lookup | final_dashboard.py:65 | `d[k]` is absent (KeyError) exactly when k is not a key, and otherwise is the value of an entry with key k |
| Seqs.LookupEntry | final_dashboard.py:65 | in a dictionary without repeated keys, looking up an entry's key gives that entry's value |
| Tables.CleanSerials | dashboard_32dtr.py:18-19 | the column overwrite cleans every serial in place, keeps every other column and the row order, and leaves every serial clean |
| Tables.CleanSerialsIdempotent | dashboard_32dtr.py:18-19 | cleaning a table twice equals cleaning it once |
| Tables.Serials | dashboard_32dtr.py:23-24 | `set(column)` holds exactly the serials occurring in the table, and no more of them than there are rows |
| Tables.ScopeRows | dashboard_32dtr.py:22 | the rows with the given `dtrcode` and `Feedercode`, exactly, in order |
| Tables.DtrRows | dashboard2.py:31 | the rows with the given `dtrcode` on any feeder, exactly, in order |
| Tables.SerialRows | dashboard2.py:87 | `t[t.serial.isin(ids)]`: the rows whose serial is in ids, exactly, in order |
| Tables.SerialSplit | dashboard3.py:40-41 | `isin` and `~isin` split a table into interleaved parts whose row counts add up |
| Tables.DistinctSerialsCount | dashboard3.py:40-42 | a table without repeated serials has as many distinct serials as rows |
| Tables.FilterDistinct | dashboard3.py:40 | a selection from a table without repeated serials has none either |
| Tables.CountKpis | final_dashboard.py:76-80 | definition only: the KPIs as row counts of the filtered master and the three sheets; what a shown page promises about them is stated by `FinalDashboard.RunReport` and `Checked57Dash.RunReport` |
| Tables.DtrOptions | dashboard2.py:26 | the drop-down holds exactly the feeder's keys other than "master", in key order, interleaved with the "master" key |
| Tables.SelectTables | dashboard2.py:29-31 | the master and transformer lookups and `int(dtr_code)` fail in that order with KeyError or ValueError, and succeed exactly when all three do, with those values |
| Tables.OfferedDtrHasSheet | dashboard2.py:26-30 | a transformer offered by the drop-down always has its sheet; only `int` can still fail |
| Engine.TaggingCounts | dashboard_32dtr.py:26-33 | KPI 1-3 are the outage, tagged-and-seen and tagged-not-seen counts; KPI 2 + KPI 3 is the tagged count, and KPI 2 is at most KPI 1 |
| Engine.LossPercent | dashboard_32dtr.py:50 | 0 when nothing is tagged, otherwise untagged/total*100 exactly, and between 0 and 100 when untagged <= total |
| Engine.FeederOthers | dashboard_32dtr.py:39-43 | exactly the master rows on the feeder, on another transformer, with a serial among ids, in order; its serials are among ids |
| Engine.OtherDtrMeters | checking57.py:23-25 | exactly the serials of the master rows on the feeder under another transformer |
| Engine.FeederOthersSerials | dashboard_32dtr.py:37-43 | the serials of the wrongly mapped rows are the seen serials carried by another transformer of the feeder, less the tagged ones |
| Engine.FeederOthersCount | dashboard_32dtr.py:37-44 | on a master sheet without repeated serials, the wrongly mapped rows number exactly their distinct serials, which are the seen serials carried by another transformer of the feeder, less the tagged ones |
| Engine.TaggedNotOtherDtr | checking57.py:15-26 | on a master sheet without repeated serials, no serial is both tagged to the transformer and carried by another transformer of the feeder |
| Engine.DetailSplit | dashboard_32dtr.py:120-130 | the seen and not-seen detail tables split `master_dtr` into interleaved parts, exactly by serial membership, with counts adding up |
| Workbooks.LoadData | dashboard2.py:6-19 | the workbook dictionary has the feeders "7088" then "15631"; their sheet keys are "master", "57", "32", "86" and "master", "34", in that order (the sheets themselves come from the `read` parameter) |
| Workbooks.SelectFeeder | dashboard2.py:25-31 | an unknown feeder is a KeyError; otherwise the result is the sheet selection within that feeder |
| Workbooks.CodeRoundTrip | dashboard2.py:10-16 | every transformer key of the workbook dictionary parses with `int` and prints back unchanged |
| Workbooks.OfferedChoicesSucceed | dashboard2.py:25-31 | every feeder and transformer the drop-downs offer selects tables, with a code that prints back as the chosen text |
| Workbooks.SelectionSucceeds | dashboard2.py:29-31 | present feeder, master and transformer keys with a parsing code select tables with that code |
| Dashboard32Dtr.Reconcile | dashboard_32dtr.py:18-50 | definition: the clean-up of both sheets followed by `Analyse`; its properties are the lemmas below |
| Dashboard32Dtr.Analyse | dashboard_32dtr.py:22-50 | definition: every intermediate the script names, from `master_dtr` to `loss_percent` and the two detail tables |
| Dashboard32Dtr.SerialsAreClean | dashboard_32dtr.py:18-24 | after the clean-up every serial of both sheets, and of both serial sets, is trimmed and upper-case |
| Dashboard32Dtr.MasterDtrIsScope | dashboard_32dtr.py:22 | `master_dtr` is exactly the cleaned rows of transformer 32 on feeder 7088, in order |
| Dashboard32Dtr.TaggedPlusUntagged | dashboard_32dtr.py:30-33 | KPI 2 + KPI 3 = the number of distinct tagged serials |
| Dashboard32Dtr.WronglyMappedMeters | dashboard_32dtr.py:37 | the wrongly mapped serials were seen and are not tagged to 32 |
| Dashboard32Dtr.WronglyMappedRows | dashboard_32dtr.py:39-47 | `wrongly_mapped_df` is exactly the rows on 7088, not on 32, with a seen-but-untagged serial; KPI 4 is its row count and KPI 5 = KPI 2 + KPI 4 |
| Dashboard32Dtr.WronglyMappedCount | dashboard_32dtr.py:37-44 | on a cleaned master without repeated serials, KPI 4 is the number of distinct wrongly mapped serials, which is the number of seen serials carried by another transformer of 7088 and not tagged to 32 |
| Dashboard32Dtr.LossPercentRange | dashboard_32dtr.py:50 | the loss is 0 without tagged serials, otherwise KPI 3 / tagged * 100, and lies between 0 and 100 |
| Dashboard32Dtr.DetailTablesPartition | dashboard_32dtr.py:120-130 | the two detail tables are interleaved parts of `master_dtr`, seen and not seen |
| Dashboard32Dtr.ReconcileIdempotent | dashboard_32dtr.py:18-19 | feeding the script already cleaned sheets gives the same report |
| Dashboard5.Reconcile | dashboard5.py:18-45 | definition: the clean-up of both sheets followed by `Analyse`; its properties are the lemmas below |
| Dashboard5.Analyse | dashboard5.py:22-45 | definition: every intermediate the script names, from `master_dtr` to KPI 5 |
| Dashboard5.SerialsAreClean | dashboard5.py:18-24 | after the clean-up every serial of both sheets and both serial sets is trimmed and upper-case |
| Dashboard5.MasterDtrIsScope | dashboard5.py:22 | `master_dtr` is exactly the cleaned rows of transformer 57 on feeder 7088, in order |
| Dashboard5.TaggingCountsAgree | dashboard5.py:27-33 | KPI 2 + KPI 3 = the tagged count, and KPI 2 <= KPI 1 |
| Dashboard5.WronglyMappedMeters | dashboard5.py:36 | the wrongly mapped serials are exactly the seen ones not tagged to 57, so disjoint from the tagged ones |
| Dashboard5.FeederOthersRows | dashboard5.py:27-45 | every `feeder_others` row is on 7088, not on 57, with a wrongly mapped serial; its distinct serials are at most KPI 1 - KPI 2; KPI 4 is its row count and KPI 5 = KPI 2 + KPI 4 |
| Dashboard5.WronglyMappedCount | dashboard5.py:36-42 | on a cleaned master without repeated serials, KPI 4 is the number of distinct wrongly mapped serials, which is the number of seen serials carried by another transformer of 7088 and not tagged to 57 |
| Dashboard4.WronglyMappedCount | dashboard4.py:33-36 | on a master without repeated serials, KPI 4 is the number of distinct wrongly mapped serials, which is the number of seen serials carried by another transformer of 7088 and not tagged to 57 |
| Dashboard4.Reconcile | dashboard4.py:18-39 | definition: every intermediate the script names, on the sheets as loaded, from `master_dtr` to KPI 5 and the two detail tables |
| Dashboard4.MasterDtrIsScope | dashboard4.py:18 | `master_dtr` is exactly the rows of transformer 57 on feeder 7088, in order |
| Dashboard4.TaggingAndWronglyMapped | dashboard4.py:26-33 | KPI 2 + KPI 3 = the tagged count; `wrongly_mapped` is the seen serials less the tagged ones, disjoint from them |
| Dashboard4.FeederMappedIsOtherDtr | dashboard4.py:18-39 | although line 35 tests only the feeder, every `feeder_mapped` row is on another transformer; KPI 5 = KPI 2 + KPI 4 |
| Dashboard4.FeederMappedIsFeederOthers | dashboard4.py:35 | the feeder-only filter gives the same rows, in the same order, as the same-feeder-other-transformer filter of dashboard5 and dashboard_32dtr |
| Dashboard4.DetailTablesPartition | dashboard4.py:113-123 | the two detail tables are interleaved parts of `master_dtr`, seen and not seen |
| Dashboard4.AgreesWithDashboard5 | dashboard4.py:18-39 | on already clean sheets `feeder_mapped` equals dashboard5's `feeder_others`, and all five KPIs agree |
| Checking57.Reconcile | checking57.py:11-44 | definition: the clean-up of both sheets followed by `Analyse`; its properties are the lemmas below |
| Checking57.Analyse | checking57.py:15-44 | definition: every set the script prints, and `total_corrected` |
| Checking57.SerialsAreClean | checking57.py:11-25 | after the clean-up every master serial and `msn`, and every serial set, is trimmed and upper-case |
| Checking57.WronglyMappedExact | checking57.py:23-26 | a serial is wrongly mapped exactly when it was seen and a master row puts it on 7088 under another transformer |
| Checking57.TaggedPartition | checking57.py:31-36 | untagged and correctly tagged are disjoint, their union is the tagged serials, and their sizes add up |
| Checking57.TaggedPartitionOf | checking57.py:31-36 | the same partition on any clean sheets |
| Checking57.TotalCorrectedIsDistinct | checking57.py:15-44 | `total_corrected` is the sum of the two sizes; if no serial is tagged both to 57 and to another transformer, the two sets are disjoint and it counts distinct serials |
| Checking57.AgreesWithDashboard5 | checking57.py:23-44 | the correctly tagged count is dashboard5's KPI 2; the serials of its `feeder_others` are `wrongly_mapped` less the tagged serials |
| Checking57.AnalysesAgree | checking57.py:23-44 | the same agreement on any clean sheets |
| Checking57.TotalCorrectedIsKpi5 | checking57.py:44 | on a cleaned master without repeated serials, the two sets added up are disjoint and `total_corrected` equals dashboard5's KPI 5 on the same sheets |
| Checking57.TotalCorrectedIsKpi5Of | checking57.py:44 | the same equality on any master sheet without repeated serials |
| Checking32.Reconcile | checking32.py:14-34 | definition: the clean-up of both sheets followed by `Analyse`; its properties are the lemmas below |
| Checking32.Analyse | checking32.py:18-34 | definition: every set the script prints |
| Checking32.SerialsAreClean | checking32.py:14-29 | after the clean-up every serial of both sheets and of the serial sets is trimmed and upper-case |
| Checking32.MasterDtrIsScope | checking32.py:18 | `master_dtr` is exactly the cleaned rows of transformer 32 on feeder 7088, in order |
| Checking32.SetBounds | checking32.py:27-34 | `wrongly_mapped` lies in the seen serials and in `other_dtr_meters`; `untagged` lies in the tagged serials and is disjoint from the seen ones |
| Checking32.SetsExact | checking32.py:27-34 | membership in `wrongly_mapped` and in `untagged`, each stated exactly in terms of the master rows and the seen serials |
| Checking32.AgreesWithDashboard32Dtr | checking32.py:30-34 | `len(untagged)` is dashboard_32dtr's KPI 3; the serials of its `wrongly_mapped_df` are `wrongly_mapped` less the tagged serials |
| Checking32.AnalysesAgree | checking32.py:30-34 | the same agreement on any clean sheets |
| Dashboard2.LossPct | dashboard2.py:42-43 | 0 with nothing tagged; otherwise `(1 - correct/total)*100` equals the untagged share in percent and lies between 0 and 100 |
| Dashboard2.Analyse | dashboard2.py:31-43 | definition: every set the page names, `total_tagged` and `loss_pct` |
| Dashboard2.Run | dashboard2.py:25-43 | the page fails exactly when a lookup or `int` raises, with that error, and otherwise shows the analysis of the selected tables |
| Dashboard2.DetailTable | dashboard2.py:86-93 | definition: the table each radio choice shows; its rows are stated by `Dashboard2.DetailTableRows` |
| Dashboard2.OfferedChoicesSucceed | dashboard2.py:25-31 | any feeder and transformer the drop-downs offer produce a page |
| Dashboard2.SetsExact | dashboard2.py:32-39 | a serial is correctly tagged exactly when it is in the outage sheet and a master row lists it under the chosen transformer; not mapped exactly when it is in the outage sheet and no such row exists; an other-feeder customer exactly when it is in the master sheet and no such row exists |
| Dashboard2.MasterDtrIsDtrRows | dashboard2.py:31 | `master_dtr` is exactly the master rows with the chosen `dtrcode`, on any feeder, in order |
| Dashboard2.CustomerSets | dashboard2.py:32-40 | correctly tagged and not mapped split the outage serials; other-feeder customers lie in the feeder's and miss the tagged ones; currently connected equals correctly tagged |
| Dashboard2.LossPctRange | dashboard2.py:42-43 | the loss is 0 with nothing tagged, equals the untagged share of the tagged serials in percent, and lies between 0 and 100 |
| Dashboard2.DetailTableRows | dashboard2.py:86-93 | each detail table is exactly the rows of its source table whose serial is in the chosen set, in order |
| Dashboard.Analyse | dashboard.py:34-43 | definition: every set the page names and `total_tagged` |
| Dashboard.Run | dashboard.py:26-43 | the page fails exactly when a lookup or `int` raises, with that error, and otherwise shows the analysis of the selected tables |
| Dashboard.DetailTable | dashboard.py:72-77 | definition: the table each radio choice shows; its rows are stated by `Dashboard.DetailTableRows` |
| Dashboard.OfferedChoicesSucceed | dashboard.py:26-31 | any feeder and transformer the drop-downs offer produce a page |
| Dashboard.SetsExact | dashboard.py:35-42 | a serial is correctly tagged exactly when it is in the outage sheet and a master row lists it under the chosen transformer; not mapped exactly when it is in the outage sheet and no such row exists; an other-feeder customer exactly when it is in the master sheet and no such row exists |
| Dashboard.MasterDtrIsDtrRows | dashboard.py:34 | `master_dtr` is exactly the master rows with the chosen `dtrcode`, in order |
| Dashboard.OutagePartition | dashboard.py:40-41 | correctly tagged and not mapped are disjoint, cover the outage serials, and their sizes add up |
| Dashboard.OtherPlusTagged | dashboard.py:35-43 | the tagged serials lie among the feeder's, so other-feeder customers + tagged total = the feeder's distinct serials |
| Dashboard.DetailTableRows | dashboard.py:72-77 | each detail table is exactly the rows of its source table whose serial is in the chosen set, in order |
| Dashboard3.LossPct | dashboard3.py:43 | 0 with nothing tagged; otherwise the loss times the tagged row count is (tagged − matching) × 100, even when more rows match than are tagged; at most 100, and not negative exactly when no more rows match than are tagged |
| Dashboard3.Analyse | dashboard3.py:34-43 | definition: the row splits of the outage sheet, `total_tagged` and `loss_pct` |
| Dashboard3.Run | dashboard3.py:25-43 | the page fails exactly when a lookup or `int` raises, with that error, and otherwise shows the analysis of the selected tables |
| Dashboard3.DetailTable | dashboard3.py:127-132 | definition: the table each radio choice shows; its rows are stated by `Dashboard3.DetailTableRows` |
| Dashboard3.DetailTableRows | dashboard3.py:38-41 | "Currently Connected" is the outage sheet itself, "Correctly Tagged" its rows with a tagged serial and "Not Mapped" those without, each an exact selection in the sheet's order |
| Dashboard3.OfferedChoicesSucceed | dashboard3.py:25-30 | any feeder and transformer the drop-downs offer produce a page |
| Dashboard3.MasterDtrIsDtrRows | dashboard3.py:34 | `master_dtr` is exactly the master rows with the chosen `dtrcode`, in order |
| Dashboard3.OutageRowsSplit | dashboard3.py:39-41 | correctly tagged and not mapped are interleaved parts of the outage rows, split exactly by tagged serial, with row counts adding up |
| Dashboard3.TotalTaggedCountsRows | dashboard3.py:35-42 | `total_tagged` is the row count of `master_dtr` and at least the number of its distinct serials |
| Dashboard3.LossPctBounds | dashboard3.py:43 | the loss is 0 with nothing tagged, at most 100, and not negative exactly when no more outage rows match than are tagged |
| Dashboard3.LossNonNegativeOnDistinctOutage | dashboard3.py:35-43 | with no repeated serial in the outage rows, at most one row matches per tagged serial and the loss lies between 0 and 100 |
| Dashboard3.RepeatedOutageRowGivesNegativeLoss | dashboard3.py:40-43 | one tagged row and the same serial twice in the outage sheet give a loss of -100 |
| FinalDashboard.DtrInfoWellFormed | final_dashboard.py:8-49 | every registry key is its entry's `feeder + "-" + dtr`, and no key repeats |
| FinalDashboard.DtrInfoCodesParse | final_dashboard.py:8-49 | the registry is well formed and every entry's codes are integers |
| FinalDashboard.Feeders | final_dashboard.py:53 | definition: the generator `x['feeder'] for x in dtr_info.values()`, one feeder per entry in registry order |
| FinalDashboard.FeederOptions | final_dashboard.py:53 | the feeder drop-down is strictly sorted and holds exactly the entries' feeders |
| FinalDashboard.DtrsOf | final_dashboard.py:54-56 | the transformers listed under f are exactly those of the entries on feeder f |
| FinalDashboard.GroupDtrsByFeeder | final_dashboard.py:54-56 | after the loop the map's keys are exactly the feeders, and under each feeder lie its entries' transformers, in registry order |
| FinalDashboard.GroupStep | final_dashboard.py:55-56 | one `setdefault(...).append(...)` turn keeps the map the grouping of the entries seen so far |
| FinalDashboard.NotGroupedMeansNone | final_dashboard.py:54-56 | a feeder no entry has has no transformers |
| FinalDashboard.OfferedFeederHasDtrs | final_dashboard.py:53-61 | every offered feeder has at least one transformer for the second drop-down |
| FinalDashboard.Key | final_dashboard.py:64 | definition: the feeder and the transformer joined by a dash |
| FinalDashboard.KeyInjective | final_dashboard.py:64-65 | for feeders without a dash, different feeder and transformer pairs give different keys |
| FinalDashboard.ChosenKeyPresent | final_dashboard.py:53-65 | any offered feeder and transformer build a key that is present and names exactly that pair, so line 65 cannot raise |
| FinalDashboard.Run | final_dashboard.py:64-80 | definition: the key lookup, the master read and filter, the two `int` calls and the three sheet reads, failing at the first that raises; its properties are `RunReport` and `OnlyLoadsCanFail` |
| FinalDashboard.Measure | final_dashboard.py:71-80 | definition: the three outage-workbook reads and the KPI counts; its property is `MeasureKeepsMaster` |
| FinalDashboard.RunReport | final_dashboard.py:64-80 | a shown page read the entry's sheets and filtered the master to its codes in order; KPI 1 counts those rows and is at most the sheet's; KPIs 2-4 count the sheets' rows; KPI 5 = KPI 2 + KPI 4 |
| FinalDashboard.OnlyLoadsCanFail | final_dashboard.py:53-80 | on a well-formed registry with integer codes, any offered choice either shows the chosen pair's filtered master or fails only because a sheet cannot be read |
| FinalDashboard.MeasureKeepsMaster | final_dashboard.py:71-80 | the outage-workbook reads fail only as reads and keep the filtered master |
| Checked57Dash.Run | Checked_57_dash.py:11-27 | definition: the four fixed reads, the 57/7088 filter and the KPI counts, failing at the first read that raises; its properties are the lemmas below |
| Checked57Dash.RunReport | Checked_57_dash.py:11-27 | a shown page keeps exactly the rows of 57 on 7088, in order; KPI 1 counts them and is at most the sheet's rows; KPIs 2-4 count the sheets' rows; KPI 5 = KPI 2 + KPI 4 |
| Checked57Dash.RegistryEntry57 | final_dashboard.py:9-18 | the registry entry "7088-57" names this script's four sheets, and its codes parse to 57 and 7088 |
| Checked57Dash.AgreesWithFinalDashboard | Checked_57_dash.py:11-27 | on the same workbooks, this script and the registry dashboard with "7088"/"57" give the same page or fail on the same sheet |

## Left out

- Spreadsheet loading: `pd.read_excel`. It is a parameter: a total `read` from file name to table for `load_data`, and an optional `read` from (file, sheet) for the registry dashboards.
- The fixed-transformer scripts take their two sheets as loaded tables.
- Columns are not checked; a missing column (a pandas KeyError) is not modelled.
- The Streamlit and Plotly layer: page config, sidebar widgets, metrics, charts, HTML, expanders, download buttons.
- The choice made by a drop-down or a radio button is an argument.
- CSV export and file names; the unused `to_excel` helper in `dashboard.py`.
- The `@st.cache_data` memoisation of `load_data`: framework caching, no effect on values.
- The `print` calls of the two checking scripts, including the unique feeder-7088 transformer list at `checking57.py:20` and `checking32.py:24`: output only.
- `astype(str)` on non-string cells: serials are strings already.
- Text.Strip: covers ASCII whitespace only, not the full Unicode set Python strips.
- Text.Upper: covers ASCII letters only, not full Unicode upper-casing.
- Text.ParseInt: accepts an optional sign and ASCII digits only. Python's `int()` also accepts surrounding whitespace, `_` digit separators and other Unicode digits; every code the scripts parse is a plain digit string.
- Missing `dtrcode` or `Feedercode` cells: pandas reads them as NaN, and NaN `!=` 32 is true, so such a row passes the other-transformer test of the wrongly-mapped masks (`dashboard_32dtr.py:41`, `dashboard5.py:39`, `checking57.py:24`, `checking32.py:28`). The codes are integers in the model, so that case cannot arise there.
- Percentages are exact reals, not floats; `f"{x:.2f}%"` formatting is not modelled.
- The outer `files[feeder]` choice is taken to come from `list(files.keys())`. `SelectFeeder` still models the KeyError for any other feeder.
- Workbooks.OfferedChoicesSucceed: does not state which file a selected sheet was read from, only that selection succeeds with the chosen code.
- check.py and _sheets.py are not part of this model: they only open workbooks and print sheet names.
