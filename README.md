# Billionaire Dashboard: the selection-to-aggregate engine

The Billionaire Dashboard is a Dash web app over a table of billionaires. Each row records:

- a person's name;
- `finalWorth`, in millions;
- `age`, which may be missing;
- `gender`;
- `country`, an ISO-3 code that may be missing;
- the country of citizenship;
- `industries`;
- `source`, the company.

When the app loads, it derives per-country counts, a global count, a decade age bucket, normalised gender labels and, in the tabbed variant, a per-(country, industry) wealth table. After that, every callback turns a selection into an aggregate. The selection is either a list of citizenship countries and industries, or one clicked country on the map. The aggregates are:

- the richest, youngest and oldest person;
- the top industry and the top company;
- age-by-gender counts;
- industry shares for a pie chart;
- the ten wealthiest sources, split by industry.

This project models that engine for both variants of the app:

- `src/app.py` is modelled by module `Dashboard`.
- `src/app_tabs.py` is modelled by module `DashboardTabs`.

Both modules build on these shared modules:

- `Sequences`: boolean masks (`Where`), subsequences and `drop_duplicates`.
- `Grouping`: `groupby(...).sum()` and `.size()` as `GroupSum`, plus lookup and the totals it preserves.
- `Ranking`:
  - first-occurrence `idxmax`/`idxmin`;
  - `idxmax` on a grouped sum;
  - the descending sort;
  - `head(n)`;
  - percentages.
- `Billionaires`:
  - the record type;
  - the in-place `age_group`/`Age` and `gender` column writes, as methods of a `DataFrame` class;
  - the row filters;
  - the statistics picks.

## How pandas is modelled

- **Table:** a table is a `seq<Record>` in load order.
- **`groupby`:** it skips rows whose key is missing. It yields one entry per distinct key holding the key's sum, and the entries are listed in first-occurrence order.
- **`idxmax` and `idxmin` on rows:** they return the first row that attains the extreme, and they skip missing ages. When no row qualifies they return `None`. Depending on the pandas version, `idxmax` either raises there or returns NaN, and the `.loc` lookup that follows then raises; either way the statistic cannot be computed.
- **`idxmax` on a grouped sum:** it returns the group with the largest sum. Ties go to the smallest key, because pandas sorts the keys of a groupby.
- **`sort_values(ascending=False)`:** only the order it promises is stated: the result is sorted by value and is a permutation of its input.
- **Percentages:** they are `real`s. A zero total gives `None`, which stands for NaN.
- **Country names:** `pycountry.countries.get(alpha_3=...)` is a parameter `countryName: string -> Option<string>`.
- **The app's loading:** if a module-level statistic (`idxmax`/`idxmin` followed by `.loc`) raises, the app fails to load. `Load` returns `Failure(StatisticsRaised)` in that case, which happens exactly when no row has an age.
- **Clicks in `src/app_tabs.py`:** its callbacks read the first clicked point's `location` without a guard, so its model functions take that location as an `Option<string>`.

## Model

| member | source | states |
|---|---|---|
| Sequences.Where | src/app.py:540 | a boolean mask keeps every element satisfying the predicate as many times as it occurs and no other element, in order (a subsequence), and keeps everything when all satisfy it |
| Sequences.MaskStep | src/app.py:540 | one step of the mask keeps the head exactly when it satisfies the predicate, so every element keeps all its copies or none |
| Sequences.CountMembers | src/app.py:540 | a result whose counts agree with a mask holds only elements of the input satisfying the predicate and misses none of them |
| Sequences.Dedup | src/app_tabs.py:476 | `drop_duplicates` keeps each distinct element once, loses none, and lists them in the order of their first occurrences |
| Sequences.DedupOrderSnoc | src/app_tabs.py:476 | appending one row keeps the first-occurrence order, the row being kept at the end only when it is new |
| Sequences.FirstIndexSnoc | src/app_tabs.py:476 | appending a row does not move the first occurrence of a value already present |
| Sequences.WhereNoDuplicates | src/app.py:749 | masking a duplicate-free table leaves it duplicate-free |
| Grouping.GroupSum | src/app.py:20 | a groupby yields at most one group per row |
| Grouping.GroupSumLookup | src/app.py:20 | each group's value is the sum of the weights of the rows with that key |
| Grouping.GroupSumHasKey | src/app.py:20 | a key is a group exactly when some row has that key (rows with a missing key form no group) |
| Grouping.GroupSumDistinct | src/app.py:20 | group keys are distinct |
| Grouping.GroupSumTotal | src/app.py:23 | the groups' values add up to the weight of all rows with a key: grouping preserves the sum |
| Grouping.GroupSumPositive | src/app.py:20 | with positive weights (`size()`), every group's value is positive |
| Grouping.GroupSumSumFirst | src/app.py:743 | regrouping a two-key groupby by its first key gives the sums of grouping the rows by that key directly |
| Grouping.GroupSumSumSecond | src/app_tabs.py:435 | regrouping a two-key groupby by its second key gives the sums of grouping the rows by that key directly |
| Grouping.LookupMissing | src/app.py:33 | a key with no group looks up as 0 (`fillna(0)`) |
| Grouping.LookupFirst | src/app.py:493 | a key that has a group looks up as the value of its first entry, the row `.values[0]` reads |
| Ranking.ArgMax | src/app.py:42 | `idxmax`: the first position with the largest score, skipping missing scores; None when no score is present |
| Ranking.ArgMin | src/app.py:45 | `idxmin`: the first position with the smallest score, skipping missing scores; None when no score is present |
| Ranking.TopGroup | src/app.py:49 | `idxmax` on a grouped sum: a group of maximal value, the smallest key among ties; None only for no groups |
| Ranking.SortDesc | src/app.py:675 | sorting by value descending yields a sorted permutation of its input |
| Ranking.SortDistinct | src/app.py:675 | sorting keeps keys distinct |
| Ranking.SortedGroupEntry | src/app.py:668-675 | each entry of a sorted grouping carries the sum of its key over the rows, and its key occurs in a row |
| Ranking.SortedGroupHasKey | src/app.py:668-675 | every row's key appears in the sorted grouping |
| Ranking.TopN | src/app.py:746 | `head(n)` keeps at most n entries and never more than there are |
| Ranking.TopNShape | src/app.py:746 | `head(n)` of the sorted groups has at most n entries, sorted, all from the input, keys distinct |
| Ranking.TopNDominates | src/app.py:746 | every entry kept by `head(n)` is at least as large as any entry it drops |
| Ranking.TopNKeepsAll | src/app.py:746 | with at most n groups, `head(n)` keeps every key |
| Ranking.Percent | src/app.py:672 | the share is NaN exactly when the whole is zero; otherwise it is the part as a percentage of the whole (share times whole equals part times 100), never negative, and at most 100 when the part does not exceed the whole |
| Ranking.SharesSumTo100 | src/app.py:671-672 | percentages of parts that add up to a positive whole add up to 100 |
| Billionaires.AgeBucket | src/app.py:36 | the decade bucket exists exactly when the age does, is a multiple of 10, and satisfies bucket <= age < bucket + 10 |
| Billionaires.NormalizeGender | src/app.py:39 | 'M' becomes 'Male', 'F' becomes 'Female', every other label is unchanged |
| Billionaires.NormalizeGenderIdempotent | src/app.py:39 | normalising twice is normalising once |
| Billionaires.DataFrame.AddAgeGroup | src/app.py:36 | the in-place `age_group` write keeps every row and sets its bucket from its age, changing nothing else |
| Billionaires.DataFrame.NormalizeGenders | src/app.py:39 | the in-place `gender` write keeps every row and normalises its label, changing nothing else |
| Billionaires.RowsOfCountry | src/app.py:358 | every row of that country, with all its copies, and no other row, as a subsequence |
| Billionaires.RowsOfIndustries | src/app.py:544 | every row whose industry is listed, with all its copies, and no other row, as a subsequence |
| Billionaires.RowsOfCitizenships | src/app.py:540 | every row whose citizenship is listed, with all its copies, and no other row, as a subsequence |
| Billionaires.RowsOfCountryCount | src/app.py:20 | the number of a country's rows equals its `size()` in the groupby |
| Billionaires.Richest | src/app.py:42 | the richest row exists iff the table is non-empty, has `finalWorth` >= every row's, and is the first such row |
| Billionaires.Youngest | src/app.py:45 | the youngest row exists iff some age is present, has age <= every present age, and is the first such row |
| Billionaires.Oldest | src/app.py:46 | the oldest row exists iff some age is present, has age >= every present age, and is the first such row |
| Billionaires.TopGroupOfRows | src/app.py:49-52 | the top group's key occurs in a row, its sum is >= every row's group sum, and among equal sums it is the smallest key |
| Billionaires.TopIndustry | src/app.py:49 | the top industry occurs in the table and has maximal summed worth; ties go to the smallest name |
| Billionaires.TopSource | src/app.py:52 | the top company occurs in the table and has maximal summed worth; ties go to the smallest name |
| Billionaires.StatsOf | src/app.py:42-52 | the five statistics exist exactly when some row has an age; each pick is a row of the table attaining its extreme, and it is the first such row (the row `idxmax`/`idxmin` select) |
| Dashboard.BillionairesCount | src/app.py:20 | per-country counts have distinct keys, are positive, count exactly each country's rows, exist exactly for countries that occur, and add up to the number of rows with a country |
| Dashboard.CountsAreRowCounts | src/app.py:20 | each country's `size()` is the number of its rows |
| Dashboard.GlobalCountIsRowCount | src/app.py:23 | when every row has a country, the global count is the number of rows |
| Dashboard.MergeCounts | src/app.py:33 | the left join yields one row per shape, in order, each keeping its shape, and a shape with no count gets 0 (`fillna(0)`) |
| Dashboard.MergedCountsMatchRows | src/app.py:33 | the left join keeps every shape in order, gives each the number of rows with its ISO code, and gives 0 to a shape with none |
| Dashboard.Load | src/app.py:20-52 | loading succeeds iff some row has an age; the store then holds the derived rows, counts and global count of the table, the joined shapes, and its statistics |
| Dashboard.DerivedKeepsCounts | src/app.py:36-39 | the column writes change neither the per-country counts nor whether any age exists |
| Dashboard.StatsOfCountry | src/app.py:357-366 | a country's statistics can be computed exactly when one of its rows has an age |
| Dashboard.UpdateKeyStatistics | src/app.py:333-388 | the global statistics for the back button, for missing or too-short `customdata`, and for a country whose query raises; otherwise the statistics of the clicked country's rows |
| Dashboard.ClickedCode | src/app.py:354-356 | the country code is present exactly when a click has a first point whose `customdata` exists and has more than one element, and then it is the second element (the same extraction as src/app.py:482-484) |
| Dashboard.KeyStatisticsOfClickedCountry | src/app.py:357-372 | for a clicked country, each pick is one of its rows and attains the extreme among that country's rows |
| Dashboard.CountryRichest | src/app.py:359-362 | the richest row of the country's rows is a row of the table in that country, at least as wealthy as every row of the country |
| Dashboard.CountryYoungest | src/app.py:359-363 | the youngest row of the country's rows is a row of the table in that country, no older than any aged row of the country |
| Dashboard.CountryOldest | src/app.py:359-364 | the oldest row of the country's rows is a row of the table in that country, no younger than any aged row of the country |
| Dashboard.UpdateBillionaireCountText | src/app.py:467-507 | the global count for the back button or no click, "not found" for an unknown code, the country's name and row count when it has rows, the global count otherwise |
| Dashboard.CountFor | src/app.py:493 | `.values[0]` of the count rows for a code: missing (the caught `IndexError`) exactly when no count row has the code, otherwise the count of the first row that has it |
| Dashboard.UpdateLegend | src/app.py:515-526 | the legend is the colour table in order, restricted to the selected industries, and the whole table when none are selected |
| Dashboard.LegendItems | src/app.py:517-525 | the loop keeps, in order, exactly the palette entries whose industry is selected, and every entry when none are |
| Dashboard.FilterSelection | src/app.py:536-544 | an empty selection returns the table; otherwise every row whose citizenship and industry are selected (empty list: any), with all its copies, and no other row, as a subsequence |
| Dashboard.SelectedRowsCount | src/app.py:536-544 | the two filter stages together keep each selected row as often as it occurs and drop every other row |
| Dashboard.UpdateScatterChart | src/app.py:547 | the (age, industry) sums of the filtered rows: distinct keys, each the sum over its rows, all together the filtered total |
| Dashboard.UpdateStackedBarChart | src/app.py:589-601 | the empty figure iff the filtered table is empty; otherwise positive (age group, gender) counts, each counting its rows, adding up to the rows having both keys |
| Dashboard.ToSlicesSums | src/app.py:668-672 | slice worths add up to the groups' total and slice percentages to their shares |
| Dashboard.IndustryShares | src/app.py:668-675 | industries sorted by worth, distinct, each with its summed worth and share of the total; every row's industry appears; worths add up to the total and percentages to 100 |
| Dashboard.PieOf | src/app.py:658-676 | no pie iff the filtered table is empty; otherwise the industry shares, and the labelled top three are the first three and dominate every other industry |
| Dashboard.LabelledIndustries | src/app.py:676 | the labels are the first min(3, n) industries in sorted order |
| Dashboard.UpdatePieChart | src/app.py:645-676 | the empty figure exactly when no row is selected; otherwise every slice is the industry of a selected row, and the slices run from the wealthiest industry down |
| Dashboard.SelectionEmpty | src/app.py:658 | the filtered table is empty exactly when no row of the table is selected |
| Dashboard.SliceIndustriesSelected | src/app.py:668 | an industry occurring in the filtered rows is the industry of a selected row of the table |
| Dashboard.Top3Dominates | src/app.py:675-676 | for slices sorted by worth, each carrying its industry's summed worth, every labelled industry's worth is >= every unlabelled slice's |
| Dashboard.SourceIndustrySums | src/app.py:740 | (source, industry) sums have distinct keys, each the sum over its rows, adding up to the filtered total |
| Dashboard.SumFirstIsSourceWorth | src/app.py:743 | regrouping by source gives each source's summed worth |
| Dashboard.SourceTotalsFacts | src/app.py:743 | per-source totals are distinct, equal each source's worth, and cover exactly the sources of the rows |
| Dashboard.TopSourceList | src/app.py:746 | at most 10 distinct sources, all from the rows, each at least as wealthy as any dropped source, and one is dropped only when 10 are kept |
| Dashboard.TopSources | src/app.py:743-746 | the names of the first ten per-source totals are distinct sources of the rows, dominate every dropped source, and fill ten places whenever one is dropped |
| Dashboard.KeptSources | src/app.py:746 | names taken from distinct per-source totals are distinct and each occurs as a row's source |
| Dashboard.DroppedSource | src/app.py:746 | a source left out of the list means the list is full and every kept source is at least as wealthy |
| Dashboard.UpdateTopSourcesBarChart | src/app.py:740-749 | kept rows are exactly the (source, industry) sums whose source is in the top list, in order, with their sums |
| Dashboard.KeptSourceBars | src/app.py:749 | the pairs the mask keeps carry their (source, industry) sums, and every pair of a top source is kept |
| DashboardTabs.PieFrame.AddTotalWealth | src/app_tabs.py:27 | `transform("sum")` gives each row the sum over the rows of its country, changing no other column |
| DashboardTabs.PieFrame.AddPercentage | src/app_tabs.py:28 | each row gets its share of its country's total, NaN for a zero total, changing no other column |
| DashboardTabs.FrameIsPieTable | src/app_tabs.py:26-28 | the frame built column by column has each country's total wealth from the table |
| DashboardTabs.BuildPie | src/app_tabs.py:26-28 | `df_pie` equals the per-(country, industry) table with each country's worth and share |
| DashboardTabs.PieTable | src/app_tabs.py:26-28 | `df_pie` has no more rows than the table, each row's `total_wealth` is its country's worth in the table, and its percentage is its worth as a share of that total |
| DashboardTabs.PieTotalWealth | src/app_tabs.py:27 | each `total_wealth` is the sum of the `finalWorth` of that country's `df_pie` rows |
| DashboardTabs.PieEntriesAreGroups | src/app_tabs.py:26 | `df_pie` rows have distinct (country, industry) pairs, each carrying the sum of its rows |
| DashboardTabs.PieCountryPercentages | src/app_tabs.py:28 | a country with positive worth has industry percentages adding up to 100 |
| DashboardTabs.Load | src/app_tabs.py:17-41 | loading succeeds iff some row has an age; the store holds the bucketed rows, their counts, the global count and `df_pie` |
| DashboardTabs.AgedKeepsCounts | src/app_tabs.py:23 | the `Age` write changes neither the counts nor whether any age exists |
| DashboardTabs.ClickedRows | src/app_tabs.py:468-472 | the whole table without a click; with one, the clicked country's rows, each with all its copies, as a subsequence (the same filter as src/app_tabs.py:395-399) |
| DashboardTabs.LineRows | src/app_tabs.py:395-402 | every row of the clicked country (any without a click) in a selected industry (any when none are), with all its copies, and no other row, as a subsequence; the whole table without click or industries |
| DashboardTabs.LineRowsCount | src/app_tabs.py:395-402 | the click and industry stages together keep each plotted row as often as it occurs and drop every other row |
| DashboardTabs.AgeTotals | src/app_tabs.py:411 | per-`Age` sums: distinct, each over its rows, present exactly for occurring buckets, adding up to the total of rows with an age |
| DashboardTabs.AgeIndustryTotals | src/app_tabs.py:403 | per-(`Age`, industry) sums: distinct, each over its rows, adding up to the total of rows with an age |
| DashboardTabs.UpdateLineChart | src/app_tabs.py:394-411 | grouped by (`Age`, industry) exactly when industries are selected, by `Age` otherwise, over the line-chart rows |
| DashboardTabs.LineChartGlobalTotal | src/app_tabs.py:411 | with no click and no industries, the per-`Age` sums add up to the table's total worth |
| DashboardTabs.UpdatePieChart | src/app_tabs.py:433-440 | global pie iff no click, regrouped by industry with distinct keys and each industry's sum; otherwise exactly the clicked country's `df_pie` rows, each as often as it occurs in `df_pie` |
| DashboardTabs.GlobalPieMatchesRows | src/app_tabs.py:435 | the regrouped global pie gives each industry the worth of its rows with a country, which is its worth in the table when every row has a country |
| DashboardTabs.CountryPieSumsTo100 | src/app_tabs.py:439 | the clicked country's pie percentages add up to 100 when it has positive worth |
| DashboardTabs.UpdateBillionaireCountText | src/app_tabs.py:449-460 | the country's name and row count when the code resolves and has rows; the global count for no click, an unknown code, or a raising lookup |
| DashboardTabs.TopCompanies | src/app_tabs.py:474-475 | at most 10 distinct sources sorted by worth, each with its summed worth and occurring in the rows; a dropped source means 10 were kept, each at least as wealthy |
| DashboardTabs.DroppedCompany | src/app_tabs.py:475 | a source left out of the top ten means ten were kept and each is at least as wealthy |
| DashboardTabs.SourceIndustryPairs | src/app_tabs.py:477 | `drop_duplicates` of the table's (source, industry) column pair: duplicate-free, each pair a row's, every row's pair present |
| DashboardTabs.Matches | src/app_tabs.py:477 | one merged bar per matching pair, or a single bar without industry when there is none |
| DashboardTabs.MatchesFound | src/app_tabs.py:477 | the bars built from the pairs the mask kept carry the company's total and an industry it has, cover every pair of the company, and are the single bar without industry only when it has none |
| DashboardTabs.LeftMerge | src/app_tabs.py:477 | the left merge keeps each company's total, joins every matching industry, keeps a company without pairs with its industry missing, and leaves the industry missing only for such a company |
| DashboardTabs.LeftMergeKeepsUnmatched | src/app_tabs.py:477 | a company without pairs is kept with a missing industry |
| DashboardTabs.LeftMergeNoDuplicates | src/app_tabs.py:477 | distinct companies and distinct pairs give distinct bars |
| DashboardTabs.UpdateTopCompaniesBarChart | src/app_tabs.py:467-477 | the merged bars are distinct, every bar is a top company of the clicked rows with its total and an industry it has in the table, and each top company appears with every industry it has in the table |
| DashboardTabs.TopCompanyBarsOf | src/app_tabs.py:477 | merging distinct companies, each occurring in the table, with the table's distinct pairs gives the bars described above |

## Left out

- Dash layout, styles, `dcc`/`html` components and every Plotly/Altair figure are left out. Only the data each callback computes is modelled, not how it is drawn.
- Text formatting is left out: format strings, unit conversions and thousands separators. `CountText` keeps only the values shown.
- `update_map` and `calculate_zoom_level` (src/app.py:299-313, 397-459) are left out: they are float and geometry work.
- GeoPandas work is left out: shapefile reading, centroids and areas (src/app.py:26-30). A shape is modelled as its ISO code and name.
- `update_map` in src/app_tabs.py is left out: it only draws `billionaires_count`.
- `pycountry` is a foreign library. It is a parameter (`countryName`).
- The pie title's `pycountry...name` in src/app_tabs.py:440 is left out. It raises for an unknown code, and titles are not modelled.
- `render_tab_content` is left out. In src/app_tabs.py it also returns the undefined `tab2_content`.
- `create_pie_chart` is undefined in src/app_tabs.py. The model stops at the table passed to it.
- src/app_tabs.py raises when a click has no points or no `location`. Its model functions take the extracted location instead.
- `callback_context` parsing is left out. In src/app.py it is reduced to the `Trigger` outcome.
- src/app_map.py is not part of this model: it does network geocoding and redraws the same counts.
- src/app_sample.py is not part of this model: it only loads a CSV and starts a server.
- CSV reading, `print` and `app.run_server` are I/O and are left out.
- Ranking.SortDesc: the tie order of pandas' quicksort is not stated. The model sorts stably, and every contract holds for any tie order.
- Grouping.GroupSum: pandas orders groups by sorted key, while the model keeps first-occurrence order. No contract depends on the group order, except where a sort or `idxmax` follows, and those are stated by value.
- Missing `gender`, `industries` or `source` values are not modelled. Only `age` and `country` may be missing.
- Percentages are exact reals, not IEEE doubles, and NaN is `None`. Infinities cannot arise, because a zero total always means a zero part.
