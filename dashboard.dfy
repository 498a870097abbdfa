/**
 * The single-page dashboard (src/app.py): the statistics computed when the
 * module is imported, and the data side of its callbacks. A callback's
 * figure is represented by the table the chart is drawn from.
 */
module Dashboard {
  import opened Options
  import opened Sequences
  import opened Grouping
  import opened Ranking
  import opened Billionaires

  // ---------------------------------------------------------------------------
  // Load time

  /** `df.groupby('country').size()`: one positive count per country code that occurs. */
  function BillionairesCount(rows: seq<Record>): (counts: seq<(string, nat)>)
    ensures DistinctKeys(counts) && AllPositive(counts)
    ensures Total(counts) == SumKeyed(rows, CountryKey, One)
    ensures forall code :: Lookup(counts, code) == |RowsOfCountry(rows, code)|
    ensures forall code :: HasKey(counts, code) <==> exists i :: 0 <= i < |rows| && rows[i].country == Some(code)
  {
    GroupSumFacts(rows, CountryKey, One);
    GroupSumPositive(rows, CountryKey, One);
    CountsAreRowCounts(rows);
    GroupSum(rows, CountryKey, One)
  }

  lemma {:induction false} CountsAreRowCounts(rows: seq<Record>)
    ensures forall code :: SumWhere(rows, CountryKey, code, One) == |RowsOfCountry(rows, code)|
  {
    forall code {
      RowsOfCountryCount(rows, code);
    }
  }

  /** The global count (the sum of the per-country counts) is the number of rows, when every row has a country. */
  lemma {:induction false} GlobalCountIsRowCount(rows: seq<Record>)
    requires forall i :: 0 <= i < |rows| ==> rows[i].country.Some?
    ensures Total(BillionairesCount(rows)) == |rows|
  {
    SumKeyedAll(rows, CountryKey, One);
    SumOfOne(rows);
  }

  /** A country shape of the geometry file; only its ISO_A3 code and name are modelled. */
  datatype Shape = Shape(iso: string, name: string)

  /** A row of `merged`: a shape with its billionaire count. */
  datatype ShapeCount = ShapeCount(shape: Shape, billionaireCount: nat)

  /**
   * `geo_df.merge(billionaires_count, left_on='ISO_A3', right_on='country', how='left').fillna(0)`.
   * The right side has one row per code, so every shape gives exactly one row,
   * and an unmatched shape's NaN count becomes 0.
   */
  function MergeCounts(shapes: seq<Shape>, counts: seq<(string, nat)>): (merged: seq<ShapeCount>)
    ensures |merged| == |shapes| && forall i :: 0 <= i < |merged| ==> merged[i].shape == shapes[i]
    ensures forall i :: 0 <= i < |merged| && !HasKey(counts, shapes[i].iso) ==> merged[i].billionaireCount == 0
  {
    forall i | 0 <= i < |shapes| && !HasKey(counts, shapes[i].iso) ensures Lookup(counts, shapes[i].iso) == 0 {
      LookupMissing(counts, shapes[i].iso);
    }
    seq(|shapes|, i requires 0 <= i < |shapes| => ShapeCount(shapes[i], Lookup(counts, shapes[i].iso)))
  }

  /** Every shape gets the number of rows with its code, and 0 when no row has it. */
  lemma {:induction false} MergedCountsMatchRows(rows: seq<Record>, shapes: seq<Shape>)
    ensures |MergeCounts(shapes, BillionairesCount(rows))| == |shapes|
    ensures forall i :: 0 <= i < |shapes| ==> MergeCounts(shapes, BillionairesCount(rows))[i].shape == shapes[i]
    ensures forall i :: 0 <= i < |shapes| ==>
      MergeCounts(shapes, BillionairesCount(rows))[i].billionaireCount == |RowsOfCountry(rows, shapes[i].iso)|
    ensures forall i :: 0 <= i < |shapes| && (forall j :: 0 <= j < |rows| ==> rows[j].country != Some(shapes[i].iso)) ==>
      MergeCounts(shapes, BillionairesCount(rows))[i].billionaireCount == 0
  {
    var counts := BillionairesCount(rows);
    forall i | 0 <= i < |shapes| && (forall j :: 0 <= j < |rows| ==> rows[j].country != Some(shapes[i].iso))
      ensures Lookup(counts, shapes[i].iso) == 0
    {
      LookupMissing(counts, shapes[i].iso);
    }
  }

  /** The module-level state after import: the table and the values derived from it once. */
  datatype Store = Store(
    df: seq<Record>,
    billionairesCount: seq<(string, nat)>,
    globalCount: nat,
    merged: seq<ShapeCount>,
    global: Stats)          // richest_person_global, youngest/oldest_billionaire_global, top_industry/company_global

  /** What the import establishes and every callback relies on. */
  predicate ValidStore(s: Store)
  {
    && s.billionairesCount == BillionairesCount(s.df)
    && s.globalCount == Total(s.billionairesCount)
    && StatsOf(s.df) == Some(s.global)
  }

  /** The import fails when a module-level `idxmax`/`idxmin` raises. */
  datatype LoadError = StatisticsRaised

  /**
   * The module-level statements in order: per-country counts and their sum,
   * the geometry join, the two column writes, then the global statistics.
   */
  method Load(raw: seq<Record>, shapes: seq<Shape>) returns (r: Result<Store, LoadError>)
    ensures r.Success? <==> exists i :: 0 <= i < |raw| && raw[i].age.Some?
    ensures r.Success? ==> ValidStore(r.value)
    ensures r.Success? ==> |r.value.df| == |raw| && forall i :: 0 <= i < |raw| ==> r.value.df[i] == Derived(raw[i])
    ensures r.Success? ==> r.value.globalCount == SumKeyed(raw, CountryKey, One)
    ensures r.Success? ==> r.value.merged == MergeCounts(shapes, BillionairesCount(raw))
  {
    var frame := new DataFrame(raw);
    var counts := BillionairesCount(frame.rows);
    var globalCount := Total(counts);
    var merged := MergeCounts(shapes, counts);
    frame.AddAgeGroup();
    var aged := frame.rows;
    frame.NormalizeGenders();
    var df := frame.rows;
    DerivedRows(raw, aged, df);
    DerivedKeepsCounts(raw, df);
    var stats := StatsOf(df);
    if stats.None? {
      return Failure(StatisticsRaised);
    }
    r := Success(Store(df, counts, globalCount, merged, stats.value));
  }

  /** A row after both load-time column writes. */
  function Derived(r: Record): Record
  {
    r.(ageGroup := AgeBucket(r.age), gender := NormalizeGender(r.gender))
  }

  lemma {:induction false} DerivedRows(raw: seq<Record>, aged: seq<Record>, df: seq<Record>)
    requires |aged| == |raw| && forall i :: 0 <= i < |aged| ==> aged[i] == raw[i].(ageGroup := AgeBucket(raw[i].age))
    requires |df| == |aged| && forall i :: 0 <= i < |df| ==> df[i] == aged[i].(gender := NormalizeGender(aged[i].gender))
    ensures |df| == |raw| && forall i :: 0 <= i < |df| ==> df[i] == Derived(raw[i])
  {
  }

  /** The column writes leave the country and age columns, hence the counts and the success of the statistics, alone. */
  lemma {:induction false} DerivedKeepsCounts(raw: seq<Record>, df: seq<Record>)
    requires |df| == |raw| && forall i :: 0 <= i < |df| ==> df[i] == Derived(raw[i])
    ensures BillionairesCount(df) == BillionairesCount(raw)
    ensures (exists i :: 0 <= i < |df| && df[i].age.Some?) <==> (exists i :: 0 <= i < |raw| && raw[i].age.Some?)
  {
    GroupSumSameColumns(df, raw, CountryKey, One);
    if exists i :: 0 <= i < |raw| && raw[i].age.Some? {
      var i :| 0 <= i < |raw| && raw[i].age.Some?;
      assert df[i].age.Some?;
    }
  }

  // ---------------------------------------------------------------------------
  // Map clicks and the "Back to Global" button

  /** What set off a callback: nothing yet, the `select-all-button`, or another input such as a map click. */
  datatype Trigger = NotTriggered | BackToGlobal | OtherInput

  /** One `clickData['points']` entry: its `customdata` list and its `location`. */
  datatype Point = Point(customdata: Option<seq<string>>, location: Option<string>)

  /**
   * The country code `customdata[1]` of the first clicked point, or None when
   * there is no click, when `points` is empty (the IndexError is caught), or
   * when `customdata` is missing or has fewer than two elements.
   */
  function ClickedCode(clickData: Option<seq<Point>>): (code: Option<string>)
    ensures code.Some? <==> clickData.Some? && |clickData.value| > 0 && clickData.value[0].customdata.Some? &&
                            |clickData.value[0].customdata.value| > 1
    ensures code.Some? ==> code.value == clickData.value[0].customdata.value[1]
  {
    match clickData
    case None => None
    case Some(points) =>
      if |points| == 0 then None
      else match points[0].customdata
        case None => None
        case Some(cd) => if |cd| > 1 then Some(cd[1]) else None
  }

  /** Some row of country `code` has an age: the one condition under which all five country picks succeed. */
  predicate HasAgedRow(df: seq<Record>, code: string)
  {
    exists i :: 0 <= i < |df| && df[i].country == Some(code) && df[i].age.Some?
  }

  lemma {:induction false} StatsOfCountry(df: seq<Record>, code: string)
    ensures StatsOf(RowsOfCountry(df, code)).Some? <==> HasAgedRow(df, code)
  {
    if HasAgedRow(df, code) {
      AgedRowGivesStats(df, code);
    }
    if StatsOf(RowsOfCountry(df, code)).Some? {
      StatsGiveAgedRow(df, code);
    }
  }

  lemma {:induction false} AgedRowGivesStats(df: seq<Record>, code: string)
    requires HasAgedRow(df, code)
    ensures StatsOf(RowsOfCountry(df, code)).Some?
  {
    var rows := RowsOfCountry(df, code);
    var i :| 0 <= i < |df| && df[i].country == Some(code) && df[i].age.Some?;
    var j :| 0 <= j < |rows| && rows[j] == df[i];
  }

  lemma {:induction false} StatsGiveAgedRow(df: seq<Record>, code: string)
    requires StatsOf(RowsOfCountry(df, code)).Some?
    ensures HasAgedRow(df, code)
  {
    var rows := RowsOfCountry(df, code);
    var j :| 0 <= j < |rows| && rows[j].age.Some?;
    assert rows[j].country == Some(code);
    var i :| 0 <= i < |df| && df[i] == rows[j];
  }

  /**
   * `update_key_statistics`: the global statistics after the button, without a
   * usable click, or when a pick over the clicked country's rows raises (no
   * row with an age, in particular no row at all); otherwise the five picks
   * over `df[df['country'] == code]`.
   */
  function UpdateKeyStatistics(store: Store, trigger: Trigger, clickData: Option<seq<Point>>): (s: Stats)
    ensures trigger == BackToGlobal || ClickedCode(clickData).None? ==> s == store.global
    ensures trigger != BackToGlobal && ClickedCode(clickData).Some? && !HasAgedRow(store.df, ClickedCode(clickData).value)
            ==> s == store.global
    ensures trigger != BackToGlobal && ClickedCode(clickData).Some? && HasAgedRow(store.df, ClickedCode(clickData).value)
            ==> Some(s) == StatsOf(RowsOfCountry(store.df, ClickedCode(clickData).value))
  {
    if trigger == BackToGlobal then store.global
    else match ClickedCode(clickData)
      case None => store.global
      case Some(code) =>
        StatsOfCountry(store.df, code);
        var stats := StatsOf(RowsOfCountry(store.df, code));
        if stats.Some? then stats.value else store.global
  }

  /** After a click on a country with aged rows, the panel shows people of that country who attain the extremes. */
  lemma {:induction false} KeyStatisticsOfClickedCountry(store: Store, trigger: Trigger, clickData: Option<seq<Point>>, code: string)
    requires trigger != BackToGlobal && ClickedCode(clickData) == Some(code) && HasAgedRow(store.df, code)
    ensures var s := UpdateKeyStatistics(store, trigger, clickData);
      && s.richest in store.df && s.richest.country == Some(code)
      && (forall j :: 0 <= j < |store.df| && store.df[j].country == Some(code) ==>
            store.df[j].finalWorth <= s.richest.finalWorth)
      && s.youngest in store.df && s.youngest.country == Some(code) && s.youngest.age.Some?
      && (forall j :: 0 <= j < |store.df| && store.df[j].country == Some(code) && store.df[j].age.Some? ==>
            s.youngest.age.value <= store.df[j].age.value)
      && s.oldest in store.df && s.oldest.country == Some(code) && s.oldest.age.Some?
      && (forall j :: 0 <= j < |store.df| && store.df[j].country == Some(code) && store.df[j].age.Some? ==>
            store.df[j].age.value <= s.oldest.age.value)
  {
    var s := UpdateKeyStatistics(store, trigger, clickData);
    var rows := RowsOfCountry(store.df, code);
    assert Some(s) == StatsOf(rows);
    CountryRichest(store.df, code, rows, s.richest);
    CountryYoungest(store.df, code, rows, s.youngest);
    CountryOldest(store.df, code, rows, s.oldest);
  }

  /** The richest of a country's rows is the richest row of that country in the whole table. */
  lemma {:induction false} CountryRichest(df: seq<Record>, code: string, rows: seq<Record>, r: Record)
    requires rows == RowsOfCountry(df, code)
    requires r in rows && forall j :: 0 <= j < |rows| ==> rows[j].finalWorth <= r.finalWorth
    ensures r in df && r.country == Some(code)
    ensures forall j :: 0 <= j < |df| && df[j].country == Some(code) ==> df[j].finalWorth <= r.finalWorth
  {
    forall j | 0 <= j < |df| && df[j].country == Some(code)
      ensures df[j].finalWorth <= r.finalWorth
    {
      var k :| 0 <= k < |rows| && rows[k] == df[j];
    }
  }

  /** The youngest of a country's aged rows is the youngest aged row of that country in the whole table. */
  lemma {:induction false} CountryYoungest(df: seq<Record>, code: string, rows: seq<Record>, r: Record)
    requires rows == RowsOfCountry(df, code)
    requires r in rows && r.age.Some?
    requires forall j :: 0 <= j < |rows| && rows[j].age.Some? ==> r.age.value <= rows[j].age.value
    ensures r in df && r.country == Some(code) && r.age.Some?
    ensures forall j :: 0 <= j < |df| && df[j].country == Some(code) && df[j].age.Some? ==> r.age.value <= df[j].age.value
  {
    forall j | 0 <= j < |df| && df[j].country == Some(code) && df[j].age.Some?
      ensures r.age.value <= df[j].age.value
    {
      var k :| 0 <= k < |rows| && rows[k] == df[j];
    }
  }

  /** The oldest of a country's aged rows is the oldest aged row of that country in the whole table. */
  lemma {:induction false} CountryOldest(df: seq<Record>, code: string, rows: seq<Record>, r: Record)
    requires rows == RowsOfCountry(df, code)
    requires r in rows && r.age.Some?
    requires forall j :: 0 <= j < |rows| && rows[j].age.Some? ==> rows[j].age.value <= r.age.value
    ensures r in df && r.country == Some(code) && r.age.Some?
    ensures forall j :: 0 <= j < |df| && df[j].country == Some(code) && df[j].age.Some? ==> df[j].age.value <= r.age.value
  {
    forall j | 0 <= j < |df| && df[j].country == Some(code) && df[j].age.Some?
      ensures df[j].age.value <= r.age.value
    {
      var k :| 0 <= k < |rows| && rows[k] == df[j];
    }
  }

  /** The text above the map. */
  datatype CountText = GlobalCount(count: nat) | SelectedCountry(name: string, count: nat) | CountryNotFound(code: string)

  /** `billionaires_count[billionaires_count['country'] == code]['billionaire_count'].values[0]`; None for the IndexError. */
  function CountFor(counts: seq<(string, nat)>, code: string): (n: Option<nat>)
    ensures n.None? <==> !HasKey(counts, code)
    ensures n.Some? ==> exists i :: FirstEntry(counts, code, i) && counts[i].1 == n.value
  {
    if HasKey(counts, code) then
      LookupFirst(counts, code);
      Some(Lookup(counts, code))
    else None
  }

  /**
   * `update_billionaire_count_text`; `countryName` stands for
   * `pycountry.countries.get(alpha_3=code)`, None when the code is unknown.
   * A known code with no rows raises inside the `try`, which shows the global count.
   */
  function UpdateBillionaireCountText(store: Store, trigger: Trigger, clickData: Option<seq<Point>>,
                                      countryName: string -> Option<string>): (t: CountText)
    requires ValidStore(store)
    ensures trigger == BackToGlobal || ClickedCode(clickData).None? ==> t == GlobalCount(store.globalCount)
    ensures trigger != BackToGlobal && ClickedCode(clickData).Some? && countryName(ClickedCode(clickData).value).None?
            ==> t == CountryNotFound(ClickedCode(clickData).value)
    ensures trigger != BackToGlobal && ClickedCode(clickData).Some? && countryName(ClickedCode(clickData).value).Some?
            ==> var code := ClickedCode(clickData).value;
                if exists i :: 0 <= i < |store.df| && store.df[i].country == Some(code)
                then t == SelectedCountry(countryName(code).value, |RowsOfCountry(store.df, code)|)
                else t == GlobalCount(store.globalCount)
  {
    if trigger == BackToGlobal then GlobalCount(store.globalCount)
    else match ClickedCode(clickData)
      case None => GlobalCount(store.globalCount)
      case Some(code) =>
        match countryName(code)
        case None => CountryNotFound(code)
        case Some(name) =>
          match CountFor(store.billionairesCount, code)
          case None => GlobalCount(store.globalCount)
          case Some(n) => SelectedCountry(name, n)
  }

  // ---------------------------------------------------------------------------
  // Legend

  /** `industries_color`, in its insertion order. */
  const IndustriesColor: seq<(string, string)> := [
    ("Automotive", "#FFD700"), ("Construction & Engineering", "#FF69B4"), ("Diversified", "#32CD32"),
    ("Energy", "#1E90FF"), ("Fashion & Retail", "#FF8C00"), ("Finance & Investments", "#BA55D3"),
    ("Food & Beverage", "#D3D3D3"), ("Gambling & Casinos", "#DC143C"), ("Healthcare", "#00CED1"),
    ("Logistics", "#FFA500"), ("Manufacturing", "#A9A9A9"), ("Media & Entertainment", "#3CB371"),
    ("Metals & Mining", "#A0522D"), ("Real Estate", "#FF6347"), ("Service", "#4682B4"),
    ("Sports", "#FFFF99"), ("Technology", "#FFB6C1"), ("Telecom", "#9370DB")]

  /**
   * `update_legend`: one (industry, colour) item per palette entry, in palette
   * order, skipping the industries not selected when a selection is made.
   */
  method UpdateLegend(selected: seq<string>) returns (items: seq<(string, string)>)
    ensures IsSubseq(items, IndustriesColor)
    ensures forall i :: 0 <= i < |items| ==> items[i] in IndustriesColor && (selected == [] || items[i].0 in selected)
    ensures forall i :: 0 <= i < |IndustriesColor| && (selected == [] || IndustriesColor[i].0 in selected) ==>
      IndustriesColor[i] in items
    ensures selected == [] ==> items == IndustriesColor
  {
    items := LegendItems(IndustriesColor, selected);
  }

  /** The loop of `update_legend`, over any palette. */
  method LegendItems(palette: seq<(string, string)>, selected: seq<string>) returns (items: seq<(string, string)>)
    ensures IsSubseq(items, palette)
    ensures forall i :: 0 <= i < |items| ==> items[i] in palette && (selected == [] || items[i].0 in selected)
    ensures forall i :: 0 <= i < |palette| && (selected == [] || palette[i].0 in selected) ==> palette[i] in items
    ensures selected == [] ==> items == palette
  {
    items := [];
    for n := 0 to |palette|
      invariant IsSubseq(items, palette[..n])
      invariant forall i :: 0 <= i < |items| ==> items[i] in palette[..n] && (selected == [] || items[i].0 in selected)
      invariant forall i :: 0 <= i < n && (selected == [] || palette[i].0 in selected) ==> palette[i] in items
      invariant selected == [] ==> items == palette[..n]
    {
      assert palette[..n + 1] == palette[..n] + [palette[n]];
      if selected != [] && palette[n].0 !in selected {
        SubseqSnocRight(items, palette[..n], palette[n]);
        continue;
      }
      SubseqSnocBoth(items, palette[..n], palette[n]);
      items := items + [palette[n]];
    }
    assert palette[..|palette|] == palette;
  }

  // ---------------------------------------------------------------------------
  // The country and industry dropdowns

  /** The row satisfies both dropdowns; an empty list does not filter. */
  predicate Selected(r: Record, countries: seq<string>, industries: seq<string>)
  {
    (countries == [] || r.citizenship in countries) && (industries == [] || r.industry in industries)
  }

  /**
   * The filter the four selection callbacks share: `df.copy()`, then
   * `isin(selected_countries)` on countryOfCitizenship when the list is
   * non-empty, then `isin(selected_industries)` on industries when that list is.
   */
  function FilterSelection(df: seq<Record>, countries: seq<string>, industries: seq<string>): (r: seq<Record>)
    ensures countries == [] && industries == [] ==> r == df
    ensures IsSubseq(r, df)
    ensures forall i :: 0 <= i < |r| ==> r[i] in df && Selected(r[i], countries, industries)
    ensures forall i :: 0 <= i < |df| && Selected(df[i], countries, industries) ==> df[i] in r
    ensures forall x :: multiset(r)[x] == if Selected(x, countries, industries) then multiset(df)[x] else 0
  {
    var byCountry := if countries != [] then RowsOfCitizenships(df, countries) else df;
    SubseqRefl(df);
    var byIndustry := if industries != [] then RowsOfIndustries(byCountry, industries) else byCountry;
    SubseqRefl(byCountry);
    SubseqTrans(byIndustry, byCountry, df);
    assert forall i :: 0 <= i < |byCountry| ==> byCountry[i] in df;
    SelectedRowsKept(df, countries, industries, byCountry, byIndustry);
    SelectedRowsCount(df, countries, industries, byCountry, byIndustry);
    byIndustry
  }

  /** Each row is kept by both stages as often as it occurs when selected, and never otherwise. */
  lemma {:induction false} SelectedRowsCount(df: seq<Record>, countries: seq<string>, industries: seq<string>,
                                             byCountry: seq<Record>, byIndustry: seq<Record>)
    requires forall x :: multiset(byCountry)[x] == if countries == [] || x.citizenship in countries then multiset(df)[x] else 0
    requires forall x :: multiset(byIndustry)[x] == if industries == [] || x.industry in industries then multiset(byCountry)[x] else 0
    ensures forall x :: multiset(byIndustry)[x] == if Selected(x, countries, industries) then multiset(df)[x] else 0
  {
    forall x ensures multiset(byIndustry)[x] == if Selected(x, countries, industries) then multiset(df)[x] else 0 {
      assert multiset(byCountry)[x] == if countries == [] || x.citizenship in countries then multiset(df)[x] else 0;
    }
  }

  lemma {:induction false} SelectedRowsKept(df: seq<Record>, countries: seq<string>, industries: seq<string>,
                         byCountry: seq<Record>, byIndustry: seq<Record>)
    requires byCountry == if countries != [] then RowsOfCitizenships(df, countries) else df
    requires byIndustry == if industries != [] then RowsOfIndustries(byCountry, industries) else byCountry
    ensures forall i :: 0 <= i < |df| && Selected(df[i], countries, industries) ==> df[i] in byIndustry
  {
    forall i | 0 <= i < |df| && Selected(df[i], countries, industries)
      ensures df[i] in byIndustry
    {
      assert df[i] in byCountry;
      var j :| 0 <= j < |byCountry| && byCountry[j] == df[i];
    }
  }

  // ---------------------------------------------------------------------------
  // Scatter chart

  /** `update_scatter_chart`'s data: `filtered_df.groupby(['age', 'industries'])['finalWorth'].sum()`. */
  function UpdateScatterChart(df: seq<Record>, countries: seq<string>, industries: seq<string>): (points: seq<((int, string), nat)>)
    ensures DistinctKeys(points)
    ensures forall k :: Lookup(points, k) == SumWhere(FilterSelection(df, countries, industries), AgeIndustryKey, k, Worth)
    ensures Total(points) == SumKeyed(FilterSelection(df, countries, industries), AgeIndustryKey, Worth)
  {
    var filtered := FilterSelection(df, countries, industries);
    GroupSumDistinct(filtered, AgeIndustryKey, Worth);
    GroupSumTotal(filtered, AgeIndustryKey, Worth);
    forall k ensures Lookup(GroupSum(filtered, AgeIndustryKey, Worth), k) == SumWhere(filtered, AgeIndustryKey, k, Worth) {
      GroupSumLookup(filtered, AgeIndustryKey, Worth, k);
    }
    GroupSum(filtered, AgeIndustryKey, Worth)
  }

  // ---------------------------------------------------------------------------
  // Stacked bar chart

  /** What the stacked bar chart is drawn from: nothing, or the (age_group, gender) counts. */
  datatype StackedBar = EmptyFigure | AgeGenderCounts(counts: seq<((int, string), nat)>)

  /**
   * `update_stacked_bar_chart`'s data: the empty figure for an empty filtered
   * table, otherwise `groupby(['age_group', 'gender']).size()`, which skips
   * rows with no age group.
   */
  function UpdateStackedBarChart(df: seq<Record>, countries: seq<string>, industries: seq<string>): (b: StackedBar)
    ensures b.EmptyFigure? <==> FilterSelection(df, countries, industries) == []
    ensures b.AgeGenderCounts? ==> DistinctKeys(b.counts) && AllPositive(b.counts)
    ensures b.AgeGenderCounts? ==>
      forall k :: Lookup(b.counts, k) == SumWhere(FilterSelection(df, countries, industries), AgeGroupGenderKey, k, One)
    ensures b.AgeGenderCounts? ==>
      Total(b.counts) == SumKeyed(FilterSelection(df, countries, industries), AgeGroupGenderKey, One)
  {
    var filtered := FilterSelection(df, countries, industries);
    if filtered == [] then EmptyFigure
    else
      GroupSumDistinct(filtered, AgeGroupGenderKey, One);
      GroupSumTotal(filtered, AgeGroupGenderKey, One);
      GroupSumPositive(filtered, AgeGroupGenderKey, One);
      forall k ensures Lookup(GroupSum(filtered, AgeGroupGenderKey, One), k) == SumWhere(filtered, AgeGroupGenderKey, k, One) {
        GroupSumLookup(filtered, AgeGroupGenderKey, One, k);
      }
      AgeGenderCounts(GroupSum(filtered, AgeGroupGenderKey, One))
  }

  // ---------------------------------------------------------------------------
  // Pie chart

  /** One row of `selected_df`: an industry, its total worth and its percentage of the total. */
  datatype Slice = Slice(industry: string, finalWorth: nat, percentage: Option<real>)

  function ToSlices(g: seq<(string, nat)>, whole: nat): seq<Slice>
  {
    seq(|g|, i requires 0 <= i < |g| => Slice(g[i].0, g[i].1, Percent(g[i].1, whole)))
  }

  function SliceWorthSum(slices: seq<Slice>): nat
  {
    if slices == [] then 0 else slices[0].finalWorth + SliceWorthSum(slices[1..])
  }

  /** Sum of the percentages; a NaN percentage (None) adds nothing. */
  function SlicePercentSum(slices: seq<Slice>): real
  {
    if slices == [] then 0.0
    else (if slices[0].percentage.Some? then slices[0].percentage.value else 0.0) + SlicePercentSum(slices[1..])
  }

  lemma {:induction false} ToSlicesSums(g: seq<(string, nat)>, whole: nat)
    ensures SliceWorthSum(ToSlices(g, whole)) == Total(g)
    ensures whole > 0 ==> SlicePercentSum(ToSlices(g, whole)) == SharesSum(g, whole)
  {
    if g != [] {
      assert ToSlices(g, whole)[1..] == ToSlices(g[1..], whole);
      ToSlicesSums(g[1..], whole);
    }
  }

  /**
   * `selected_df` of `update_pie_chart` on a table: `groupby('industries')['finalWorth'].sum()`,
   * the percentage of the total per industry, sorted by total descending.
   */
  /** Some row of `rows` is in industry `ind`. */
  predicate IndustryOccurs(rows: seq<Record>, ind: string)
  {
    exists j :: 0 <= j < |rows| && rows[j].industry == ind
  }

  function IndustryShares(rows: seq<Record>): (slices: seq<Slice>)
    ensures forall i, j :: 0 <= i < j < |slices| ==> slices[i].finalWorth >= slices[j].finalWorth
    ensures forall i, j :: 0 <= i < j < |slices| ==> slices[i].industry != slices[j].industry
    ensures forall i :: 0 <= i < |slices| ==> slices[i].finalWorth == IndustryWorth(rows, slices[i].industry)
    ensures forall i :: 0 <= i < |slices| ==> IndustryOccurs(rows, slices[i].industry)
    ensures forall j :: 0 <= j < |rows| ==> exists i :: 0 <= i < |slices| && slices[i].industry == rows[j].industry
    ensures SliceWorthSum(slices) == SumOf(rows, Worth)
    ensures forall i :: 0 <= i < |slices| ==> slices[i].percentage == Percent(slices[i].finalWorth, SumOf(rows, Worth))
    ensures SumOf(rows, Worth) > 0 ==> SlicePercentSum(slices) == 100.0
  {
    var sorted := SortDesc(GroupSum(rows, IndustryKey, Worth));
    var slices := ToSlices(sorted, Total(sorted));
    SharesOrder(rows, sorted, slices);
    SharesEntries(rows, sorted, slices);
    SharesCoverRows(rows, sorted, slices);
    SharesTotals(rows, sorted, slices);
    slices
  }

  lemma {:induction false} SharesOrder(rows: seq<Record>, sorted: seq<(string, nat)>, slices: seq<Slice>)
    requires sorted == SortDesc(GroupSum(rows, IndustryKey, Worth))
    requires slices == ToSlices(sorted, Total(sorted))
    ensures forall i, j :: 0 <= i < j < |slices| ==> slices[i].finalWorth >= slices[j].finalWorth
    ensures forall i, j :: 0 <= i < j < |slices| ==> slices[i].industry != slices[j].industry
  {
    GroupSumDistinct(rows, IndustryKey, Worth);
    SortDistinct(GroupSum(rows, IndustryKey, Worth));
  }

  lemma {:induction false} SharesEntries(rows: seq<Record>, sorted: seq<(string, nat)>, slices: seq<Slice>)
    requires sorted == SortDesc(GroupSum(rows, IndustryKey, Worth))
    requires slices == ToSlices(sorted, Total(sorted))
    ensures forall i :: 0 <= i < |slices| ==> slices[i].finalWorth == IndustryWorth(rows, slices[i].industry)
    ensures forall i :: 0 <= i < |slices| ==> exists j :: 0 <= j < |rows| && rows[j].industry == slices[i].industry
  {
    forall i | 0 <= i < |slices|
      ensures slices[i].finalWorth == IndustryWorth(rows, slices[i].industry)
      ensures exists j :: 0 <= j < |rows| && rows[j].industry == slices[i].industry
    {
      SortedGroupEntry(rows, IndustryKey, Worth, sorted, i);
      var j :| 0 <= j < |rows| && IndustryKey(rows[j]) == Some(sorted[i].0);
      assert rows[j].industry == slices[i].industry;
    }
  }

  lemma {:induction false} SharesCoverRows(rows: seq<Record>, sorted: seq<(string, nat)>, slices: seq<Slice>)
    requires sorted == SortDesc(GroupSum(rows, IndustryKey, Worth))
    requires slices == ToSlices(sorted, Total(sorted))
    ensures forall j :: 0 <= j < |rows| ==> exists i :: 0 <= i < |slices| && slices[i].industry == rows[j].industry
  {
    forall j | 0 <= j < |rows|
      ensures exists i :: 0 <= i < |slices| && slices[i].industry == rows[j].industry
    {
      SortedGroupHasKey(rows, IndustryKey, Worth, sorted, j);
      var i :| 0 <= i < |sorted| && sorted[i].0 == rows[j].industry;
      assert slices[i].industry == rows[j].industry;
    }
  }

  lemma {:induction false} SharesTotals(rows: seq<Record>, sorted: seq<(string, nat)>, slices: seq<Slice>)
    requires sorted == SortDesc(GroupSum(rows, IndustryKey, Worth))
    requires slices == ToSlices(sorted, Total(sorted))
    ensures SliceWorthSum(slices) == SumOf(rows, Worth)
    ensures forall i :: 0 <= i < |slices| ==> slices[i].percentage == Percent(slices[i].finalWorth, SumOf(rows, Worth))
    ensures SumOf(rows, Worth) > 0 ==> SlicePercentSum(slices) == 100.0
  {
    var groups := GroupSum(rows, IndustryKey, Worth);
    GroupSumTotal(rows, IndustryKey, Worth);
    SumKeyedAll(rows, IndustryKey, Worth);
    TotalSortDesc(groups);
    ToSlicesSums(sorted, Total(sorted));
    if Total(sorted) > 0 {
      SharesSumTo100(sorted, Total(sorted));
    }
  }

  /** What the pie chart is drawn from: nothing, or the industry slices and the three that get a label. */
  datatype PieChart = EmptyPie | Pie(slices: seq<Slice>, top3: seq<string>)

  /**
   * `update_pie_chart`'s data for a filtered table: the empty figure when it
   * has no rows (before any division), otherwise the industry shares and the
   * first three industries of their descending order.
   */
  function PieOf(rows: seq<Record>): (p: PieChart)
    ensures p.EmptyPie? <==> rows == []
    ensures p.Pie? ==> p.slices == IndustryShares(rows) && p.top3 == LabelledIndustries(p.slices)
    ensures p.Pie? ==> forall i, j :: 0 <= i < |p.top3| <= j < |p.slices| ==>
      IndustryWorth(rows, p.top3[i]) >= p.slices[j].finalWorth
  {
    if rows == [] then EmptyPie
    else
      var slices := IndustryShares(rows);
      Top3Dominates(rows, slices);
      Pie(slices, LabelledIndustries(slices))
  }

  /**
   * `update_pie_chart`: the selection filter, then the pie of what is left.
   * There is no pie exactly when no row is selected; otherwise every slice
   * is the industry of a selected row, and the slices run from the
   * wealthiest industry down.
   */
  function UpdatePieChart(df: seq<Record>, countries: seq<string>, industries: seq<string>): (p: PieChart)
    ensures p.EmptyPie? <==> forall i :: 0 <= i < |df| ==> !Selected(df[i], countries, industries)
    ensures p.Pie? ==> forall i :: 0 <= i < |p.slices| ==> SelectedIndustry(df, countries, industries, p.slices[i].industry)
    ensures p.Pie? ==> forall i, j :: 0 <= i < j < |p.slices| ==> p.slices[i].finalWorth >= p.slices[j].finalWorth
  {
    var rows := FilterSelection(df, countries, industries);
    var p := PieOf(rows);
    SelectionEmpty(df, countries, industries, rows);
    if p.Pie? then
      SliceIndustriesSelected(df, countries, industries, rows, p.slices);
      p
    else
      p
  }

  /** The filtered table is empty exactly when no row of the table is selected. */
  lemma {:induction false} SelectionEmpty(df: seq<Record>, countries: seq<string>, industries: seq<string>, rows: seq<Record>)
    requires forall i :: 0 <= i < |rows| ==> rows[i] in df && Selected(rows[i], countries, industries)
    requires forall i :: 0 <= i < |df| && Selected(df[i], countries, industries) ==> df[i] in rows
    ensures rows == [] <==> forall i :: 0 <= i < |df| ==> !Selected(df[i], countries, industries)
  {
    if rows != [] {
      assert rows[0] in df;
      var j :| 0 <= j < |df| && df[j] == rows[0];
      assert Selected(df[j], countries, industries);
    }
  }

  /** Some selected row of `df` is in industry `ind`. */
  predicate SelectedIndustry(df: seq<Record>, countries: seq<string>, industries: seq<string>, ind: string)
  {
    exists j :: 0 <= j < |df| && Selected(df[j], countries, industries) && df[j].industry == ind
  }

  /** A slice industry taken from the filtered rows is the industry of a selected row of the table. */
  lemma {:induction false} SliceIndustriesSelected(df: seq<Record>, countries: seq<string>, industries: seq<string>,
                                                   rows: seq<Record>, slices: seq<Slice>)
    requires forall i :: 0 <= i < |rows| ==> rows[i] in df && Selected(rows[i], countries, industries)
    requires forall i :: 0 <= i < |slices| ==> IndustryOccurs(rows, slices[i].industry)
    ensures forall i :: 0 <= i < |slices| ==> SelectedIndustry(df, countries, industries, slices[i].industry)
  {
    forall i | 0 <= i < |slices|
      ensures SelectedIndustry(df, countries, industries, slices[i].industry)
    {
      assert IndustryOccurs(rows, slices[i].industry);
      var k :| 0 <= k < |rows| && rows[k].industry == slices[i].industry;
      assert rows[k] in df;
      var j :| 0 <= j < |df| && df[j] == rows[k];
      assert Selected(df[j], countries, industries);
    }
  }

  /** The industries of the first three slices, the ones `update_pie_chart` labels. */
  function LabelledIndustries(slices: seq<Slice>): (top3: seq<string>)
    ensures |top3| == Min(3, |slices|)
    ensures forall i :: 0 <= i < |top3| ==> top3[i] == slices[i].industry
  {
    seq(Min(3, |slices|), i requires 0 <= i < Min(3, |slices|) => slices[i].industry)
  }

  lemma {:induction false} Top3Dominates(rows: seq<Record>, slices: seq<Slice>)
    requires forall i, j :: 0 <= i < j < |slices| ==> slices[i].finalWorth >= slices[j].finalWorth
    requires forall i :: 0 <= i < |slices| ==> slices[i].finalWorth == IndustryWorth(rows, slices[i].industry)
    ensures forall i, j :: 0 <= i < |LabelledIndustries(slices)| <= j < |slices| ==>
      IndustryWorth(rows, LabelledIndustries(slices)[i]) >= slices[j].finalWorth
  {
    var top3 := LabelledIndustries(slices);
    forall i, j | 0 <= i < |top3| <= j < |slices|
      ensures IndustryWorth(rows, top3[i]) >= slices[j].finalWorth
    {
      assert IndustryWorth(rows, slices[i].industry) == slices[i].finalWorth;
    }
  }

  // ---------------------------------------------------------------------------
  // Top sources bar chart

  /** `groupby(['source', 'industries'], as_index=False)['finalWorth'].sum()`. */
  function SourceIndustrySums(rows: seq<Record>): (pairs: seq<((string, string), nat)>)
    ensures DistinctKeys(pairs)
    ensures forall k :: Lookup(pairs, k) == SumWhere(rows, SourceIndustryKey, k, Worth)
    ensures forall i :: 0 <= i < |pairs| ==> pairs[i].1 == SumWhere(rows, SourceIndustryKey, pairs[i].0, Worth)
    ensures Total(pairs) == SumOf(rows, Worth)
  {
    GroupSumDistinct(rows, SourceIndustryKey, Worth);
    GroupSumTotal(rows, SourceIndustryKey, Worth);
    SumKeyedAll(rows, SourceIndustryKey, Worth);
    var pairs := GroupSum(rows, SourceIndustryKey, Worth);
    forall k ensures Lookup(pairs, k) == SumWhere(rows, SourceIndustryKey, k, Worth) {
      GroupSumLookup(rows, SourceIndustryKey, Worth, k);
    }
    forall i | 0 <= i < |pairs|
      ensures pairs[i].1 == Lookup(pairs, pairs[i].0)
    {
      LookupEntry(pairs, i);
    }
    pairs
  }

  lemma {:induction false} SumFirstIsSourceWorth(rows: seq<Record>, source: string)
    ensures SumWhereFirst(rows, SourceIndustryKey, source, Worth) == SourceWorth(rows, source)
  {
    if rows != [] {
      SumFirstIsSourceWorth(rows[1..], source);
    }
  }

  /** `total_wealth_per_source`: regrouping the (source, industry) sums by source gives each source's total. */
  lemma {:induction false} SourceTotalsFacts(rows: seq<Record>, totals: seq<(string, nat)>)
    requires totals == GroupSum(SourceIndustrySums(rows), First, Value)
    ensures DistinctKeys(totals)
    ensures forall i :: 0 <= i < |totals| ==> totals[i].1 == SourceWorth(rows, totals[i].0)
    ensures forall i :: 0 <= i < |totals| ==> exists j :: 0 <= j < |rows| && rows[j].source == totals[i].0
    ensures forall j :: 0 <= j < |rows| ==> HasKey(totals, rows[j].source)
  {
    GroupSumDistinct(SourceIndustrySums(rows), First, Value);
    forall i | 0 <= i < |totals|
      ensures totals[i].1 == SourceWorth(rows, totals[i].0)
      ensures exists j :: 0 <= j < |rows| && rows[j].source == totals[i].0
    {
      SourceTotalEntry(rows, totals, i);
    }
    forall j | 0 <= j < |rows|
      ensures HasKey(totals, rows[j].source)
    {
      SourceTotalOfRow(rows, totals, j);
    }
  }

  lemma {:induction false} SourceTotalEntry(rows: seq<Record>, totals: seq<(string, nat)>, i: nat)
    requires totals == GroupSum(SourceIndustrySums(rows), First, Value) && i < |totals|
    ensures totals[i].1 == SourceWorth(rows, totals[i].0)
    ensures exists j :: 0 <= j < |rows| && rows[j].source == totals[i].0
  {
    var pairs := SourceIndustrySums(rows);
    GroupSumDistinct(pairs, First, Value);
    LookupEntry(totals, i);
    RegroupLookup(rows, SourceIndustryKey, Worth, totals[i].0);
    SumFirstIsSourceWorth(rows, totals[i].0);
    assert HasKey(totals, totals[i].0);
    GroupSumHasKey(pairs, First, Value, totals[i].0);
    var p :| 0 <= p < |pairs| && First(pairs[p]) == Some(totals[i].0);
    GroupSumHasKey(rows, SourceIndustryKey, Worth, pairs[p].0);
    assert HasKey(pairs, pairs[p].0);
    var j :| 0 <= j < |rows| && SourceIndustryKey(rows[j]) == Some(pairs[p].0);
  }

  lemma {:induction false} SourceTotalOfRow(rows: seq<Record>, totals: seq<(string, nat)>, j: nat)
    requires totals == GroupSum(SourceIndustrySums(rows), First, Value) && j < |rows|
    ensures HasKey(totals, rows[j].source)
  {
    var pairs := SourceIndustrySums(rows);
    var k := (rows[j].source, rows[j].industry);
    GroupSumHasKey(rows, SourceIndustryKey, Worth, k);
    assert SourceIndustryKey(rows[j]) == Some(k);
    var p :| 0 <= p < |pairs| && pairs[p].0 == k;
    assert First(pairs[p]) == Some(rows[j].source);
    GroupSumHasKey(pairs, First, Value, rows[j].source);
  }

  /** `sort_values(by='finalWorth', ascending=False).head(10)['source']` over the per-source totals. */
  function TopSourceList(rows: seq<Record>): (list: seq<string>)
    ensures |list| <= 10 && NoDuplicates(list)
    ensures forall i :: 0 <= i < |list| ==> exists j :: 0 <= j < |rows| && rows[j].source == list[i]
    ensures forall i, j :: 0 <= i < |list| && 0 <= j < |rows| && rows[j].source !in list ==>
      SourceWorth(rows, list[i]) >= SourceWorth(rows, rows[j].source)
    ensures forall j :: 0 <= j < |rows| && rows[j].source !in list ==> |list| == 10
  {
    var totals := GroupSum(SourceIndustrySums(rows), First, Value);
    var top := TopN(totals, 10);
    var list := seq(|top|, i requires 0 <= i < |top| => top[i].0);
    TopSources(rows, totals, top, list);
    list
  }

  lemma {:induction false} TopSources(rows: seq<Record>, totals: seq<(string, nat)>, top: seq<(string, nat)>,
                                      list: seq<string>)
    requires totals == GroupSum(SourceIndustrySums(rows), First, Value)
    requires top == TopN(totals, 10)
    requires list == seq(|top|, i requires 0 <= i < |top| => top[i].0)
    ensures |list| <= 10 && NoDuplicates(list)
    ensures forall i :: 0 <= i < |list| ==> exists j :: 0 <= j < |rows| && rows[j].source == list[i]
    ensures forall i, j :: 0 <= i < |list| && 0 <= j < |rows| && rows[j].source !in list ==>
      SourceWorth(rows, list[i]) >= SourceWorth(rows, rows[j].source)
    ensures forall j :: 0 <= j < |rows| && rows[j].source !in list ==> |list| == 10
  {
    SourceTotalsFacts(rows, totals);
    TopNShape(totals, 10);
    KeptSources(rows, totals, top, list);
    forall j | 0 <= j < |rows| && rows[j].source !in list
      ensures |list| == 10
      ensures forall i :: 0 <= i < |list| ==> SourceWorth(rows, list[i]) >= SourceWorth(rows, rows[j].source)
    {
      DroppedSource(rows, totals, top, list, j);
    }
  }

  /** The names of distinct groups drawn from the per-source totals are distinct sources of the rows. */
  lemma {:induction false} KeptSources(rows: seq<Record>, totals: seq<(string, nat)>, top: seq<(string, nat)>, list: seq<string>)
    requires forall i :: 0 <= i < |totals| ==> exists j :: 0 <= j < |rows| && rows[j].source == totals[i].0
    requires DistinctKeys(top) && forall i :: 0 <= i < |top| ==> top[i] in totals
    requires list == seq(|top|, i requires 0 <= i < |top| => top[i].0)
    ensures NoDuplicates(list)
    ensures forall i :: 0 <= i < |list| ==> exists j :: 0 <= j < |rows| && rows[j].source == list[i]
  {
    forall i | 0 <= i < |list|
      ensures exists j :: 0 <= j < |rows| && rows[j].source == list[i]
    {
      var p :| 0 <= p < |totals| && totals[p] == top[i];
      assert list[i] == totals[p].0;
      var r :| 0 <= r < |rows| && rows[r].source == totals[p].0;
      assert rows[r].source == list[i];
    }
    assert forall i :: 0 <= i < |list| ==> exists j :: 0 <= j < |rows| && rows[j].source == list[i];
    forall i, k | 0 <= i < k < |list| ensures list[i] != list[k] {
      assert list[i] == top[i].0 && list[k] == top[k].0;
    }
  }

  /** A source left out of the ten has a total no larger than any kept one, and is left out only when ten are kept. */
  lemma {:induction false} DroppedSource(rows: seq<Record>, totals: seq<(string, nat)>, top: seq<(string, nat)>,
                                         list: seq<string>, j: nat)
    requires forall i :: 0 <= i < |totals| ==> totals[i].1 == SourceWorth(rows, totals[i].0)
    requires j < |rows| && HasKey(totals, rows[j].source)
    requires top == TopN(totals, 10)
    requires list == seq(|top|, i requires 0 <= i < |top| => top[i].0)
    requires rows[j].source !in list
    ensures |list| == 10
    ensures forall i :: 0 <= i < |list| ==> SourceWorth(rows, list[i]) >= SourceWorth(rows, rows[j].source)
  {
    TopNShape(totals, 10);
    var s := rows[j].source;
    assert !HasKey(top, s) by {
      forall i | 0 <= i < |top| ensures top[i].0 != s {
        assert list[i] == top[i].0;
      }
    }
    var e :| 0 <= e < |totals| && totals[e].0 == s;
    TopNDominates(totals, 10, totals[e]);
    forall i | 0 <= i < |list|
      ensures SourceWorth(rows, list[i]) >= SourceWorth(rows, s)
    {
      var p :| 0 <= p < |totals| && totals[p] == top[i];
    }
    if |totals| <= 10 {
      TopNKeepsAll(totals, 10, s);
    }
  }

  /** `update_top_sources_bar_chart`'s data: the (source, industry) sums of the ten sources with the largest totals. */
  function UpdateTopSourcesBarChart(df: seq<Record>, countries: seq<string>, industries: seq<string>)
    : (kept: seq<((string, string), nat)>)
    ensures IsSubseq(kept, SourceIndustrySums(FilterSelection(df, countries, industries)))
    ensures forall i :: 0 <= i < |kept| ==> kept[i].0.0 in TopSourceList(FilterSelection(df, countries, industries))
    ensures forall i :: 0 <= i < |kept| ==>
      kept[i].1 == SumWhere(FilterSelection(df, countries, industries), SourceIndustryKey, kept[i].0, Worth)
    ensures forall e :: (e in SourceIndustrySums(FilterSelection(df, countries, industries)) &&
                         e.0.0 in TopSourceList(FilterSelection(df, countries, industries))) ==>
      e in kept
  {
    var filtered := FilterSelection(df, countries, industries);
    var pairs := SourceIndustrySums(filtered);
    var list := TopSourceList(filtered);
    var kept := Where(pairs, (e: ((string, string), nat)) => e.0.0 in list);
    KeptSourceBars(filtered, pairs, list, kept);
    kept
  }

  /** The pairs a mask on the top sources keeps are exactly those pairs, with their sums. */
  lemma {:induction false} KeptSourceBars(rows: seq<Record>, pairs: seq<((string, string), nat)>, list: seq<string>,
                                          kept: seq<((string, string), nat)>)
    requires forall i :: 0 <= i < |pairs| ==> pairs[i].1 == SumWhere(rows, SourceIndustryKey, pairs[i].0, Worth)
    requires forall i :: 0 <= i < |kept| ==> kept[i] in pairs && kept[i].0.0 in list
    requires forall i :: 0 <= i < |pairs| && pairs[i].0.0 in list ==> pairs[i] in kept
    ensures forall i :: 0 <= i < |kept| ==> kept[i].1 == SumWhere(rows, SourceIndustryKey, kept[i].0, Worth)
    ensures forall e :: e in pairs && e.0.0 in list ==> e in kept
  {
    forall i | 0 <= i < |kept| ensures kept[i].1 == SumWhere(rows, SourceIndustryKey, kept[i].0, Worth) {
      var k :| 0 <= k < |pairs| && pairs[k] == kept[i];
    }
    forall e | e in pairs && e.0.0 in list ensures e in kept {
      var k :| 0 <= k < |pairs| && pairs[k] == e;
    }
  }
}
