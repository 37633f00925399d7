# SIGAP KUMUH dashboard — a Dafny model of the client-side data layer

SIGAP KUMUH is a React dashboard for Jakarta's slum-upgrading programme
(CAP and CIP activities). Its figures are organised along the region
hierarchy wilayah → kecamatan → kelurahan → RW. This project models the
dashboard's client-side logic and proves properties of that model:

- the selection state of the dashboard page, with cascading resets, and the
  selection state of the landing page;
- the choice of the chart's grouping level;
- the dependent option lists of the filter dropdowns;
- the five-field row filter shared by the cards, where 'Semua' means
  "everything";
- the aggregations behind the charts, tables and info cards;
- the selection logic of the multi-select dropdown;
- the free-text table search and the query-parameter cleaning;
- the cookie lookup;
- the non-floating-point parts of the price-estimate card.

Rows are JavaScript objects. They are modelled generically in `Js` as
`Record = seq<(string, Value)>`, where `Value` is `Undefined | Null | Str |
Num`. `Get` gives `Undefined` for a missing key, so a JavaScript `===`
between field values is datatype equality. Amounts and counts are
unbounded integers.

Layout:

- `js.dfy`: values and records, `String(x)`, `join`, ASCII case mapping,
  trimming and `includes`.
- `seqs.dfy`, `sums.dfy`, `sorting.dfy`: first-seen de-duplication
  (`new Set`), `filter`, `map`, `reduce` sums, and sorting by a total
  preorder.
- `semua_filter.dfy`: the shared five-field filter.
- One module per source file: `Dashboard`, `MultiSelect`, `App`,
  `ChartPanel`, `Donut`, `TableDetail`, `AllDataTable`, `BarChart`,
  `InfoCards`, `TablePanel`, `Api`, `Proyeksi`, `Cookie`.

Each source file keeps its own form in the model:

- State that the source updates step by step is a class with fields and
  methods: the six slots of `DashboardCapCip.js`, the five selections of
  `App.js`, and the form of `ProyeksiCard.js`.
- The `forEach` loops are methods with loop invariants:
  - the donut's dictionary aggregation;
  - the bar chart's five `push` arrays;
  - the `Set` built by `toggleAll`;
  - the inflation `for` loop.
- Everything else is functions and lemmas.

Where the code and the written design disagree, the model follows the
code:

- The design describes multi-valued selections, a priority ordering for
  activity types, pagination of table rows, and "empty collection =
  unrestricted" everywhere. The code has single-valued selections.
  - On the landing page the sentinel is 'Semua'.
  - In the dashboard option lists the sentinel is the empty string.
  - There is no pagination or priority list.
- The cards filter on `tahun`, `wilayah`, `kecamatan`, `kelurahan` and
  `rw`, while the chart and the info cards read `periode_data` and
  `lokasi_rw`. The model keeps those field names as the code has them.

## Model

| member | source | states |
|---|---|---|
| Dashboard.Initial | src/components/DashboardCapCip.js:24-29 | every one of the six slots starts as 'Semua' |
| Dashboard.Change | src/components/DashboardCapCip.js:206-223 | a change stores the new value in its slot, resets exactly the region levels strictly below it to 'Semua', and leaves every other slot (both years included) unchanged |
| Dashboard.FilterState.constructor | src/components/DashboardCapCip.js:24-29 | the six `useState` slots start in the initial state |
| Dashboard.FilterState.OnChangeTahunCap | src/components/DashboardCapCip.js:206 | changes only the CAP year |
| Dashboard.FilterState.OnChangeTahunCip | src/components/DashboardCapCip.js:207 | changes only the CIP year |
| Dashboard.FilterState.OnChangeWilayah | src/components/DashboardCapCip.js:208-213 | stores the wilayah and resets kecamatan, kelurahan and RW, nothing else |
| Dashboard.FilterState.OnChangeKecamatan | src/components/DashboardCapCip.js:214-218 | stores the kecamatan and resets kelurahan and RW only |
| Dashboard.FilterState.OnChangeKelurahan | src/components/DashboardCapCip.js:219-222 | stores the kelurahan and resets RW only |
| Dashboard.FilterState.OnChangeRw | src/components/DashboardCapCip.js:223 | changes only the RW slot |
| Dashboard.FilterState.OnReset | src/components/DashboardCapCip.js:224-231 | all six slots return to 'Semua', which is exactly the initial state |
| Dashboard.LevelXAxis | src/components/DashboardCapCip.js:61-66 | the grouping level is one of the four region levels; 'rw' only with a kelurahan selected; 'wilayah' only without one |
| Dashboard.AxisIgnoresRwAndYears | src/components/DashboardCapCip.js:61-66 | the RW and year slots never influence the grouping level |
| Dashboard.AxisAfterChange | src/components/DashboardCapCip.js:206-223 | after choosing a wilayah the level is kecamatan; after choosing a kecamatan it is kelurahan; after choosing a kelurahan (with a kecamatan chosen or no wilayah) it is RW; a year or RW change keeps the level |
| Dashboard.EmptyCountsAsSelected | src/components/DashboardCapCip.js:61-66 | only the literal 'Semua' counts as unselected, so an empty wilayah already groups by kecamatan |
| Dashboard.OptionList | src/components/DashboardCapCip.js:165-190 | an option list is duplicate-free, sorted, and holds exactly the field values of its rows |
| Dashboard.FilteredOptions | src/components/DashboardCapCip.js:161-193 | the kecamatan, kelurahan and RW lists are duplicate-free and sorted, and each holds exactly the values of the rows (of `data` or none) matching every ancestor selection, where only '' is unrestricted |
| Dashboard.OptionListOfMatching | src/components/DashboardCapCip.js:165-190 | a list drawn from the rows satisfying a predicate holds exactly those rows' values |
| Dashboard.NestedOptionRows | src/components/DashboardCapCip.js:165-190 | the rows feeding the RW list are a subsequence of those feeding the kelurahan list, which are a subsequence of those feeding the kecamatan list |
| Dashboard.InitialOptionsNeedSemuaRows | src/components/DashboardCapCip.js:165-169 | in the initial state the kecamatan list offers only kecamatan of rows whose wilayah is literally 'Semua' |
| Dashboard.InitialKecamatanListEmpty | src/components/DashboardCapCip.js:165-169 | as written, a freshly mounted dashboard over a row from Pusat/Gambir offers no kecamatan at all |
| Dashboard.CorrectedOptions | src/components/DashboardCapCip.js:161-193 | the option lists with 'Semua' read as unrestricted stay duplicate-free and sorted |
| Dashboard.CorrectedInitialOffersAll | src/components/DashboardCapCip.js:161-193 | with that reading, the initial state offers every kecamatan, kelurahan and RW occurring in the data |
| Dashboard.SortAsc | src/components/DashboardCapCip.js:74-78 | `sortAsc` returns a sorted permutation of its input under any total preorder standing for the collation; the input sequence is a value and stays as it was |
| MultiSelect.SortOptions | src/components/MultiSelectDropdown.js:24-26 | a section's options lose empty strings and duplicates and are sorted; exactly the non-empty options of a present list remain |
| MultiSelect.NormalizeAll | src/components/MultiSelectDropdown.js:28-30 | there are never more cleaned sections than input sections |
| MultiSelect.NormalizedFrom | src/components/MultiSelectDropdown.js:28-30 | a group is kept exactly when it is some input section, cleaned, that still has an option |
| MultiSelect.BlankIffEmpty | src/components/MultiSelectDropdown.js:24-30 | a section loses all its options exactly when it had no non-empty option |
| MultiSelect.NormalizedGroups | src/components/MultiSelectDropdown.js:24-30 | every kept section is duplicate-free and sorted |
| MultiSelect.NormSections | src/components/MultiSelectDropdown.js:22-32 | the result is null exactly when there are no sections or every section is blank; otherwise every section is non-empty, duplicate-free and sorted |
| MultiSelect.FlatAll | src/components/MultiSelectDropdown.js:34-39 | with sections, exactly the options of the sections; without, the cleaned duplicate-free options |
| MultiSelect.KeepMatchingIsFilter | src/components/MultiSelectDropdown.js:44-50 | skipping the filter for a blank query equals filtering with it |
| MultiSelect.VisibleFlat | src/components/MultiSelectDropdown.js:41-54 | the visible options are, in order, the options of `flatAll` whose lowercase form contains the trimmed lowercase query |
| MultiSelect.BlankQueryShowsAll | src/components/MultiSelectDropdown.js:41-54 | a blank or whitespace-only query shows every option |
| MultiSelect.CheckStatesExclusive | src/components/MultiSelectDropdown.js:58-59 | `allChecked` and `someChecked` never hold together, and neither holds with nothing visible |
| MultiSelect.ToggleValue | src/components/MultiSelectDropdown.js:71-79 | single mode emits exactly `[val]` and closes; multi mode appends an absent value at the end, or removes every occurrence of a present one, keeping every copy of every other value in order |
| MultiSelect.ToggleTwiceRestores | src/components/MultiSelectDropdown.js:77-78 | toggling an absent value twice restores the selection |
| MultiSelect.ToggleValueNoDups | src/components/MultiSelectDropdown.js:71-79 | toggling keeps a duplicate-free selection duplicate-free |
| MultiSelect.ToggleAll | src/components/MultiSelectDropdown.js:61-69 | nothing is emitted when multiple choice is off; with every visible option checked, the selection without the visible options; otherwise the de-duplicated selection followed by the missing visible options |
| MultiSelect.SelectAllChecksAll | src/components/MultiSelectDropdown.js:58-67 | after "select all" every visible option is checked and the selection is duplicate-free |
| MultiSelect.DeselectAllRemovesVisible | src/components/MultiSelectDropdown.js:63 | "select none" removes exactly the visible options and keeps the others in order |
| MultiSelect.DisplayText | src/components/MultiSelectDropdown.js:81-87 | no selected option shows the label; one shows that very option, the only selected value that is an option; as many as there are options shows "Semua"; otherwise the count followed by " dipilih" |
| MultiSelect.ChosenCount | src/components/MultiSelectDropdown.js:82-86 | without repeated selections, the count shown is the number of distinct options chosen |
| MultiSelect.DisplaySemuaIffAllChosen | src/components/MultiSelectDropdown.js:81-87 | with two or more effective choices, "Semua" is shown exactly when every option is chosen |
| App.Selections.constructor | src/App.js:13-17 | the five selections start empty |
| App.Selections.SetTahun | src/App.js:138 | changes only the year; no cascade |
| App.Selections.SetWilayah | src/App.js:146 | changes only the wilayah |
| App.Selections.SetKecamatan | src/App.js:154 | changes only the kecamatan |
| App.Selections.SetKelurahan | src/App.js:162 | changes only the kelurahan |
| App.Selections.SetRw | src/App.js:170 | changes only the RW |
| App.Selections.OnReset | src/App.js:180-186 | all five selections return to '' |
| App.FiltersMapping | src/App.js:27-33 | each filter field is 'Semua' for an empty selection and the selection itself otherwise |
| App.ResetShowsAllRows | src/App.js:180-186 | after a reset the five-field filter keeps every row |
| App.DependentOptions | src/App.js:105-128 | option lists are duplicate-free; year options are the years of all rows; region options are the values of rows passing the five filters; any other level gives [] |
| App.DistinctValues | src/App.js:115-124 | `[...new Set(map)]` is duplicate-free and holds exactly the rows' values |
| App.OptionsInFirstSeenOrder | src/App.js:115-124 | every option list is in first-seen order: a subsequence of the mapped values |
| App.YearOptionsIgnoreFilters | src/App.js:115-116 | the year list does not depend on the filters |
| App.PinnedLevelOffersItself | src/App.js:106-124 | a level whose filter is not 'Semua' offers that value or nothing |
| App.ResetOptions | src/App.js:115-124 | with nothing selected, a region list is the level's distinct values over all rows, in first-seen order |
| App.RowHead | src/App.js:42-103 | a sample row keeps its year and wilayah in its first two fields |
| App.SampleOptions | src/App.js:42-118 | with no filters over the sample rows, the wilayah options are Pusat, Barat, Selatan, Utara and the year options are just 2024 |
| SemuaFilter.FilterRows | src/components/DonutChartCard.js:15-23 | a row is kept exactly when it passes; the result is an order-preserving subsequence of the data |
| SemuaFilter.PassesIff | src/components/TableDetailCard.js:4-12 | a row passes exactly when each of the five fields is 'Semua' in the filter or equal to the row's field |
| SemuaFilter.AllSemuaKeepsAll | src/components/TableDetailCard.js:4-12 | with all five fields 'Semua' every row is kept |
| SemuaFilter.FilterRowsIdempotent | src/components/TableDetailCard.js:4-12 | filtering the result again changes nothing |
| SemuaFilter.EmptyFiltersKeepOnlyBareRows | src/components/DonutChartCard.js:13-23 | with the default `{}` filters only rows lacking all five fields pass |
| ChartPanel.XField | src/components/ChartPanel.js:16-19 | the grouping field is one of four, never 'lokasi_kabkota', and 'lokasi_rw' exactly when the kelurahan is set and the two earlier branches do not apply |
| ChartPanel.LeadingDigits | src/components/ChartPanel.js:40-41 | a prefix made only of digits, followed by a non-digit or the end |
| ChartPanel.FirstDigitRun | src/components/ChartPanel.js:40-41 | `match(/\d+/)` finds nothing exactly when there is no digit, and otherwise a non-empty run of digits |
| ChartPanel.FirstRunAfter | src/components/ChartPanel.js:39-40 | `/\d+/` matches the maximal digit run that follows any digit-free prefix |
| ChartPanel.RwKeyAfter | src/components/ChartPanel.js:39-40 | a label sorts by the value of the digit run after its digit-free prefix |
| ChartPanel.RwKeyExamples | src/components/ChartPanel.js:39-40 | "RW 05" sorts as 5, "12" as 12 and "-" as 0 |
| ChartPanel.RwLeTotalPreorder | src/components/ChartPanel.js:39-43 | the RW comparator is a total preorder |
| ChartPanel.Labels | src/components/ChartPanel.js:22-56 | labels are duplicate-free and exactly the values of the grouping field; sorted by the first digit run for RW under a DKI wilayah, otherwise by the default sort |
| ChartPanel.TahunList | src/components/ChartPanel.js:59 | the distinct stringified years, duplicate-free and sorted |
| ChartPanel.Color | src/components/ChartPanel.js:62-65 | 2023 is yellow, 2024 green and every other year red |
| ChartPanel.CellIsGroupSum | src/components/ChartPanel.js:69-77 | each entry is the sum of the numeric jumlah over rows of that year and label |
| ChartPanel.YearAmountIsGroupSum | src/components/ChartPanel.js:70-77 | a year's amounts summed over all rows are the numeric jumlah of that year's rows |
| ChartPanel.YearDataset | src/components/ChartPanel.js:67-79 | a dataset has one entry per label, aligned with the labels, titled by its year and coloured by it |
| ChartPanel.Datasets | src/components/ChartPanel.js:62-80 | one dataset per year of `tahunList`, in that order |
| ChartPanel.YearBarsTotal | src/components/ChartPanel.js:69-77 | the bars of one year add up to that year's numeric jumlah |
| ChartPanel.YearTotals | src/components/ChartPanel.js:62-80 | the per-dataset totals, aligned with the datasets |
| ChartPanel.ChartConservesTotal | src/components/ChartPanel.js:59-78 | all bars of all datasets add up to the numeric jumlah over all rows |
| Donut.AnggaranKey | src/components/DonutChartCard.js:26-27 | only the exact title 'Persentase Anggaran CAP' sums `anggaran_cap`; every other title sums `anggaran_cip` |
| Donut.LabelAndAmountFallbacks | src/components/DonutChartCard.js:32-33 | a missing name groups as 'Lainnya', a present name groups as itself, and a missing amount counts 0 |
| Donut.Aggregate | src/components/DonutChartCard.js:30-38 | the dictionary's keys are the distinct names in first-seen order, and each value is that name's total |
| Donut.TallyPrefix | src/components/DonutChartCard.js:31-35 | one more row updates the dictionary once, and its name joins the key order only when it is new |
| Donut.TallyMeaning | src/components/DonutChartCard.js:31-35 | after any prefix of rows the dictionary holds exactly the names seen, each mapped to the total of its rows |
| Donut.TallyCoversKeys | src/components/DonutChartCard.js:37-38 | every first-seen name has an entry, and that entry is the name's total |
| Donut.Colors | src/components/DonutChartCard.js:46-57 | the colour list is the palette's first min(n, 10) entries |
| Donut.DonutChart | src/components/DonutChartCard.js:13-57 | slice names are distinct and are exactly the names of passing rows; slices are aligned per-name totals; the total equals both the sum of the slices and the chosen amount over the passing rows; there are min(10, slices) colours |
| TableDetail.TotalOfNothingIsZero | src/components/TableDetailCard.js:14 | the total is 0 when no row passes |
| TableDetail.OrElse | src/components/TableDetailCard.js:39-42 | the `or` fallback gives `x` when truthy and the fallback otherwise |
| TableDetail.TableDetailCard | src/components/TableDetailCard.js:36-62 | the 'Tidak ada data' row appears exactly when no row passes; the footer appears exactly when data rows do, and holds `totalAnggaran`; data rows are aligned with the passing rows |
| TableDetail.FooterIsColumnSum | src/components/TableDetailCard.js:14-62 | the footer equals the sum of the amount column |
| TableDetail.CellFallbacks | src/components/TableDetailCard.js:39-42 | a missing name shows 'Pekerjaan Jalan Lingkungan (ASPAL)', a missing volume or unit '-', and a missing amount 0 |
| AllDataTable.Columns | src/components/AllDataTable.js:108 | the key list of the first row, or [] for no data |
| AllDataTable.Unscore | src/components/AllDataTable.js:156 | every '_' becomes a space and nothing else changes |
| AllDataTable.HeaderText | src/components/AllDataTable.js:156 | same length, no '_' and no lowercase letter remain, a space exactly where there was '_' or a space, and every other character is upper-cased |
| AllDataTable.HeaderTextIdempotent | src/components/AllDataTable.js:156 | transforming a header again changes nothing |
| AllDataTable.CellOf | src/components/AllDataTable.js:164-168 | in a column whose name contains 'anggaran' in any case, a number is formatted and `null` or an all-white-space string shows "NaN"; every other cell shows its value |
| AllDataTable.ToNumberOfString | src/components/AllDataTable.js:166 | a string passes the `isNaN` test exactly when it is all white space |
| Js.TrimBlank | src/components/MultiSelectDropdown.js:42 | `trim` gives the empty string exactly for an all-white-space string |
| AllDataTable.RowCells | src/components/AllDataTable.js:163-169 | one cell per column, aligned with the columns |
| AllDataTable.AllDataTableView | src/components/AllDataTable.js:108-169 | the message appears exactly when no row passes; otherwise one header per column and one body row per passing row, in order |
| AllDataTable.ColumnsIgnoreFilters | src/components/AllDataTable.js:108 | the headers do not depend on the filters |
| BarChart.Column | src/components/BarChartCard.js:41-47 | entry i of a column is the field of row i |
| BarChart.ColumnAppend | src/components/BarChartCard.js:41-47 | a column of concatenated rows is the concatenated columns |
| BarChart.GetProcessedData | src/components/BarChartCard.js:26-56 | non-array data gives five empty arrays; otherwise each array has one entry per row, entry i being the field of row i |
| BarChart.X1Labels | src/components/BarChartCard.js:148 | the hidden axis labels are 0..n-1 |
| InfoCards.Count | src/components/InfoCards.js:5-8 | a distinct count (of raw wilayah values, or of joined keys below) is at most the number of rows, and 0 exactly for no rows |
| InfoCards.DropLastSegment | src/components/InfoCards.js:6-8 | cutting the last bar-separated segment of a key gives back its parent key |
| InfoCards.KeyParent | src/components/InfoCards.js:5-8 | a row's key at the next level, cut once, is its key at this level |
| InfoCards.ParentKeys | src/components/InfoCards.js:5-8 | the distinct parent keys are no more than the distinct child keys |
| InfoCards.CountMonotone | src/components/InfoCards.js:5-8 | without a bar character in the next level's names, and (from wilayah to kecamatan) without two wilayah values written the same, the counts do not decrease down the hierarchy |
| InfoCards.KeyCountMonotone | src/components/InfoCards.js:6-8 | the joined keys of a level are no more numerous than those of the next level |
| InfoCards.RegionCountIsKeyCount | src/components/InfoCards.js:5-6 | when no two wilayah values are written the same, the wilayah count is at most the number of distinct wilayah texts |
| InfoCards.UndefinedRegionBreaksMonotone | src/components/InfoCards.js:5-6 | a missing wilayah and the text 'undefined' count as two wilayah but one kecamatan key |
| InfoCards.BarInNameBreaksMonotone | src/components/InfoCards.js:5-6 | with a bar character inside a name, a kecamatan count can fall below the wilayah count |
| InfoCards.InfoList | src/components/InfoCards.js:11-17 | five entries in fixed title order carrying the four counts and `totalCIP` |
| InfoCards.EmptyDataShowsZeros | src/components/InfoCards.js:5-9 | no data shows zero on all five cards |
| TablePanel.FilteredData | src/components/TablePanel.js:42-47 | a row is kept exactly when its joined lowercase values contain the lowercase search text; the result is an order-preserving subsequence |
| TablePanel.EmptySearchKeepsAll | src/components/TablePanel.js:42-47 | an empty search keeps every row in order |
| TablePanel.SearchMonotone | src/components/TablePanel.js:46 | a search text containing another matches a subsequence of its rows |
| TablePanel.TwoFieldText | src/components/TablePanel.js:43-46 | a row with two string fields is searched as the two strings joined by one space |
| TablePanel.MatchAcrossFields | src/components/TablePanel.js:43-46 | for any two non-empty string fields, the last letter of the first, a space and the first letter of the second is a match: a match may straddle two adjacent fields |
| TablePanel.RowCells | src/components/TablePanel.js:7-39 | every row shows the same six columns |
| Api.CleanFilters | src/utils/api.js:5-7 | exactly the entries whose value is `undefined` or '' are dropped, in order |
| Api.CleanIdempotent | src/utils/api.js:5-7 | cleaning twice is cleaning once |
| Api.CleanCons | src/utils/api.js:5-7 | cleaning works entry by entry from the front |
| Api.CleanedLookup | src/utils/api.js:5-7 | for distinct keys, a cleaned lookup gives `undefined` for '' and the original value otherwise (null, 0 and 'Semua' included) |
| Cookie.FindFirst | src/utils/auth.js:6 | a position found leaves room for the whole separator inside the string |
| Cookie.FindFirstMeaning | src/utils/auth.js:6 | the scan returns the first position where the separator occurs, and nothing only when it occurs nowhere |
| Cookie.Split | src/utils/auth.js:6 | `split` always gives at least one part |
| Cookie.SplitAfterFirst | src/utils/auth.js:6 | after the first part, the split goes on as the split of the text after the first separator |
| Cookie.SplitSingle | src/utils/auth.js:6 | one part exactly when the separator is not found, and that part is the whole string |
| Cookie.SplitTwo | src/utils/auth.js:7 | there are two parts exactly when the separator occurs once, the second being the text after it |
| Cookie.BeforeSemicolon | src/utils/auth.js:7 | the prefix up to the first ';' or the end, containing no ';' |
| Cookie.GetCookie | src/utils/auth.js:4-9 | a found value never contains ';' |
| Cookie.GetCookieIff | src/utils/auth.js:5-8 | a value is found exactly when "; name=" occurs exactly once in "; " + cookie, and it is the text after it up to ';' |
| Cookie.AbsentGivesNull | src/utils/auth.js:6-8 | null when "; name=" does not occur |
| Cookie.RepeatedGivesNull | src/utils/auth.js:7-8 | null when "; name=" occurs twice |
| Cookie.SplitTwiceNotTwo | src/utils/auth.js:6-7 | two occurrences of the separator that do not overlap never give exactly two parts |
| Cookie.FoundTwiceNotTwo | src/utils/auth.js:6-7 | when the separator is found again after its first occurrence, there are more than two parts |
| Cookie.FirstPairFound | src/utils/auth.js:5 | the prefix "; " lets the first pair be found like the others |
| Cookie.WholeNamesOnly | src/utils/auth.js:6 | 'token' does not match an 'accessToken' pair |
| Proyeksi.Classify | src/components/ProyeksiCard.js:33-44 | admin exactly when the cookies contain both token names; else external exactly when `userData` is a non-empty string; else public |
| Proyeksi.Growth | src/components/ProyeksiCard.js:57-61 | the compounded multiplier is at least 1 |
| Proyeksi.GrowthIncreasing | src/components/ProyeksiCard.js:57-61 | with every rate positive, the multiplier grows strictly with the number of years |
| Proyeksi.SelectableYears | src/components/ProyeksiCard.js:105-106 | every year offered (2024-2040) stays within the 17-rate table, and a later year has a strictly larger multiplier |
| Proyeksi.UnitWord | src/components/ProyeksiCard.js:66 | 'meter' exactly for Jalan and Saluran, 'unit' otherwise |
| Proyeksi.TotalHarga | src/components/ProyeksiCard.js:56-63 | the price is a number exactly when the item is known and the year is within the table |
| Proyeksi.CompoundInflation | src/components/ProyeksiCard.js:57-61 | the loop computes the product of (1 + rate) over the first `tahun - 2023` rates, or NaN past the table |
| Proyeksi.ProyeksiCard.constructor | src/components/ProyeksiCard.js:25-29 | status unknown, item 'Jalan', volume 1, year 2024 and no result |
| Proyeksi.ProyeksiCard.CheckAuth | src/components/ProyeksiCard.js:32-48 | the status becomes the classification; the card renders exactly when both tokens are present; the form is untouched |
| Proyeksi.ProyeksiCard.SetItem | src/components/ProyeksiCard.js:84 | changes only the item |
| Proyeksi.ProyeksiCard.SetVolume | src/components/ProyeksiCard.js:98 | changes only the volume |
| Proyeksi.ProyeksiCard.SetTahun | src/components/ProyeksiCard.js:104 | changes only the year |
| Proyeksi.ProyeksiCard.HitungEstimasi | src/components/ProyeksiCard.js:50-68 | an incomplete form leaves everything unchanged; otherwise only the result is set, from the year, the volume, the unit word, the item and the total price |
| Proyeksi.ProyeksiCard.ResetForm | src/components/ProyeksiCard.js:70-75 | restores item 'Jalan', volume 1, year 2024 and an empty result |

## Left out

- Network and browser I/O is not modelled: `fetch`, axios and
  `URLSearchParams`, `useEffect` data loading, DataTables/jQuery and
  pdfMake, Chart.js rendering and options, and alerts.
  - `document.cookie` and `localStorage` become parameters.
  - The rest of `src/utils/auth.js` and the presentation-only components
    are not part of this model.
- Floating point is idealised or left out:
  - unit prices, rates and the multiplier are exact reals;
  - the donut percentage (`toFixed`), the bar tick callback and the
    `toLocaleString` currency and thousands formatting are not modelled.
  - The estimate's result is kept as its structured content rather than as
    the formatted sentence.
- Locale collation: `localeCompare('id', {numeric: true})` is an abstract
  total preorder. The default `sort()` is code-unit order.
- JavaScript coercions are not modelled:
  - amounts are `Num` or missing;
  - numeric-string amounts are left out;
  - `String(x)` covers strings, integers, `null` and `undefined` only.
- AllDataTable.CellOf: a non-blank string such as "1500" is treated as
  failing the `isNaN` test and is shown as it is. JavaScript would read it
  as a number and format what `parseInt` makes of it.
- Donut.Aggregate: keys are in insertion order. JavaScript lists
  integer-like object keys first, in numeric order, and that reordering is
  not modelled.
- ChartPanel.Labels: the `lokasi_kabkota` ordering branch is not modelled,
  because `XField` proves it unreachable.
- Js.Lower, Js.Upper, Js.Trim: case mapping covers ASCII letters only.
  The white space `trim` removes is the ASCII one plus U+00A0 and U+FEFF;
  the other Unicode space separators and U+2028/U+2029 are not included.
  Characters are UTF-16 code units.
- MultiSelect.DisplaySemuaIffAllChosen: the "Semua" reading is proved for
  duplicate-free selections and options only. The toggles keep selections
  duplicate-free, and a duplicated selection could reach the option count
  without covering every option.
- Proyeksi.ProyeksiCard.SetVolume: a volume that does not parse (NaN) is
  `None`. An `undefined` unit price and NaN results are `None` as well.
- MultiSelect: the menu's `open` and `query` UI state is not modelled;
  the query is an input.
- Proyeksi.ProyeksiCard.HitungEstimasi: the `alert` on an incomplete form
  is not modelled.

## Findings

| source | as written | input that shows it | evidently intended | confidence | as-written member | corrected member |
|---|---|---|---|---|---|---|
| src/components/DashboardCapCip.js:161-193 | the slots start as 'Semua', but the option filter treats only '' as unrestricted, so 'Semua' is compared with each row's wilayah | initial state over one row with wilayah 'Pusat' and kecamatan 'Gambir': the kecamatan list is empty | 'Semua' counts as unrestricted, so every kecamatan, kelurahan and RW in the data is offered | not executed; the state and the option filter are modelled directly from the lines cited | Dashboard.InitialKecamatanListEmpty | Dashboard.CorrectedInitialOffersAll |
