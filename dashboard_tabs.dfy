/**
 * The tabbed dashboard (src/app_tabs.py): its load-time tables and the data
 * side of the callbacks driven by a click on the map. A click is represented
 * by the `location` of its first point.
 */
module DashboardTabs {
  import opened Options
  import opened Sequences
  import opened Grouping
  import opened Ranking
  import opened Billionaires
  import Dashboard

  // ---------------------------------------------------------------------------
  // df_pie

  /** One row of `df_pie`: a (country, industry) group with its country's total and its share of it. */
  datatype PieEntry = PieEntry(country: string, industry: string, finalWorth: nat, totalWealth: nat, percentage: Option<real>)

  function PieCountryKey(e: PieEntry): Option<string>
  {
    Some(e.country)
  }

  function PieIndustryKey(e: PieEntry): Option<string>
  {
    Some(e.industry)
  }

  function PieWorth(e: PieEntry): nat
  {
    e.finalWorth
  }

  /** `df_pie` while it is built: the (country, industries) sums, then the two columns added to them. */
  class PieFrame {
    var groups: seq<((string, string), nat)>
    var totalWealth: seq<nat>
    var percentage: seq<Option<real>>

    constructor (grouped: seq<((string, string), nat)>)
      ensures groups == grouped && totalWealth == [] && percentage == []
    {
      groups, totalWealth, percentage := grouped, [], [];
    }

    /** `df_pie.groupby("country")["finalWorth"].transform("sum")`: each row gets the sum over the rows of its country. */
    method AddTotalWealth()
      modifies this
      ensures groups == old(groups) && percentage == old(percentage)
      ensures |totalWealth| == |groups|
      ensures forall i :: 0 <= i < |groups| ==> totalWealth[i] == SumWhere(groups, First, groups[i].0.0, Value)
    {
      var g := groups;
      totalWealth := seq(|g|, i requires 0 <= i < |g| => SumWhere(g, First, g[i].0.0, Value));
    }

    /** `df_pie["finalWorth"] / df_pie["total_wealth"] * 100`, NaN (None) for a zero total. */
    method AddPercentage()
      requires |totalWealth| == |groups|
      modifies this
      ensures groups == old(groups) && totalWealth == old(totalWealth)
      ensures |percentage| == |groups|
      ensures forall i :: 0 <= i < |groups| ==> percentage[i] == Percent(groups[i].1, totalWealth[i])
    {
      var g, t := groups, totalWealth;
      percentage := seq(|g|, i requires 0 <= i < |g| => Percent(g[i].1, t[i]));
    }

    /** The rows of the finished frame. */
    function Entries(): seq<PieEntry>
      reads this
      requires |totalWealth| == |groups| && |percentage| == |groups|
    {
      var g, t, p := groups, totalWealth, percentage;
      seq(|g|, i requires 0 <= i < |g| => PieEntry(g[i].0.0, g[i].0.1, g[i].1, t[i], p[i]))
    }
  }

  /** What `df_pie` holds, stated on the table it is built from: each country's total is that country's worth in `df`. */
  function PieTable(df: seq<Record>): (pie: seq<PieEntry>)
    ensures |pie| <= |df|
    ensures forall i :: 0 <= i < |pie| ==> pie[i].totalWealth == CountryWorth(df, pie[i].country)
    ensures forall i :: 0 <= i < |pie| ==> pie[i].percentage == Percent(pie[i].finalWorth, pie[i].totalWealth)
  {
    var g := GroupSum(df, CountryIndustryKey, Worth);
    seq(|g|, i requires 0 <= i < |g| =>
      PieEntry(g[i].0.0, g[i].0.1, g[i].1, CountryWorth(df, g[i].0.0), Percent(g[i].1, CountryWorth(df, g[i].0.0))))
  }

  /** Summing the pie rows of a country is summing the grouped entries whose first key is that country. */
  lemma {:induction false} EntriesSumCountry(g: seq<((string, string), nat)>, t: seq<PieEntry>, c: string)
    requires |t| == |g| && forall i :: 0 <= i < |g| ==> t[i].country == g[i].0.0 && t[i].finalWorth == g[i].1
    ensures SumWhere(t, PieCountryKey, c, PieWorth) == SumWhere(g, First, c, Value)
  {
    if g != [] {
      EntriesSumCountry(g[1..], t[1..], c);
    }
  }

  lemma {:induction false} EntriesSumIndustry(g: seq<((string, string), nat)>, t: seq<PieEntry>, ind: string)
    requires |t| == |g| && forall i :: 0 <= i < |g| ==> t[i].industry == g[i].0.1 && t[i].finalWorth == g[i].1
    ensures SumWhere(t, PieIndustryKey, ind, PieWorth) == SumWhere(g, Second, ind, Value)
  {
    if g != [] {
      EntriesSumIndustry(g[1..], t[1..], ind);
    }
  }

  lemma {:induction false} SumFirstIsCountryWorth(rows: seq<Record>, c: string)
    ensures SumWhereFirst(rows, CountryIndustryKey, c, Worth) == CountryWorth(rows, c)
  {
    if rows != [] {
      SumFirstIsCountryWorth(rows[1..], c);
    }
  }

  /** The grouped entries of country `c` add up to `c`'s worth in `df`. */
  lemma {:induction false} CountryGroupsSum(df: seq<Record>, c: string)
    ensures SumWhere(GroupSum(df, CountryIndustryKey, Worth), First, c, Value) == CountryWorth(df, c)
  {
    GroupSumSumFirst(df, CountryIndustryKey, Worth, c);
    SumFirstIsCountryWorth(df, c);
  }

  /** The frame built column by column is `PieTable`: `transform("sum")` gives each country's worth. */
  lemma {:induction false} FrameIsPieTable(df: seq<Record>, g: seq<((string, string), nat)>, t: seq<nat>, p: seq<Option<real>>)
    requires g == GroupSum(df, CountryIndustryKey, Worth)
    requires |t| == |g| && forall i :: 0 <= i < |g| ==> t[i] == SumWhere(g, First, g[i].0.0, Value)
    requires |p| == |g| && forall i :: 0 <= i < |g| ==> p[i] == Percent(g[i].1, t[i])
    ensures seq(|g|, i requires 0 <= i < |g| => PieEntry(g[i].0.0, g[i].0.1, g[i].1, t[i], p[i])) == PieTable(df)
  {
    forall i | 0 <= i < |g|
      ensures t[i] == CountryWorth(df, g[i].0.0)
    {
      CountryGroupsSum(df, g[i].0.0);
    }
  }

  /** Each `total_wealth` is the sum of `finalWorth` over the `df_pie` rows of its country, as `transform("sum")` promises. */
  lemma {:induction false} PieTotalWealth(df: seq<Record>)
    ensures forall i :: 0 <= i < |PieTable(df)| ==>
      PieTable(df)[i].totalWealth == SumWhere(PieTable(df), PieCountryKey, PieTable(df)[i].country, PieWorth)
  {
    var g := GroupSum(df, CountryIndustryKey, Worth);
    var t := PieTable(df);
    forall i | 0 <= i < |t|
      ensures t[i].totalWealth == SumWhere(t, PieCountryKey, t[i].country, PieWorth)
    {
      EntriesSumCountry(g, t, t[i].country);
      CountryGroupsSum(df, t[i].country);
    }
  }

  /** The pie rows are the (country, industry) groups of the rows that have a country. */
  lemma {:induction false} PieEntriesAreGroups(df: seq<Record>)
    ensures forall i, j :: 0 <= i < j < |PieTable(df)| ==>
      (PieTable(df)[i].country, PieTable(df)[i].industry) != (PieTable(df)[j].country, PieTable(df)[j].industry)
    ensures forall i :: 0 <= i < |PieTable(df)| ==>
      PieTable(df)[i].finalWorth == SumWhere(df, CountryIndustryKey, (PieTable(df)[i].country, PieTable(df)[i].industry), Worth)
  {
    var g := GroupSum(df, CountryIndustryKey, Worth);
    var t := PieTable(df);
    GroupSumDistinct(df, CountryIndustryKey, Worth);
    forall i | 0 <= i < |t|
      ensures t[i].finalWorth == SumWhere(df, CountryIndustryKey, (t[i].country, t[i].industry), Worth)
    {
      assert g[i].0 == (t[i].country, t[i].industry);
      LookupEntry(g, i);
      GroupSumLookup(df, CountryIndustryKey, Worth, g[i].0);
    }
  }

  /** Sum of the percentages of the pie rows of country `c`; a NaN percentage adds nothing. */
  function CountryPercentSum(t: seq<PieEntry>, c: string): real
  {
    if t == [] then 0.0
    else (if t[0].country == c && t[0].percentage.Some? then t[0].percentage.value else 0.0) + CountryPercentSum(t[1..], c)
  }

  lemma {:induction false} CountryPercentScaled(t: seq<PieEntry>, c: string, whole: nat)
    requires whole > 0
    requires forall i :: 0 <= i < |t| && t[i].country == c ==> t[i].percentage == Percent(t[i].finalWorth, whole)
    ensures CountryPercentSum(t, c) == (SumWhere(t, PieCountryKey, c, PieWorth) as real) / (whole as real) * 100.0
  {
    if t != [] {
      assert forall i :: 0 <= i < |t[1..]| ==> t[1..][i] == t[i + 1];
      CountryPercentScaled(t[1..], c, whole);
      var b, w := SumWhere(t[1..], PieCountryKey, c, PieWorth) as real, whole as real;
      if t[0].country == c {
        var a := t[0].finalWorth as real;
        assert t[0].percentage == Some(a / w * 100.0);
        assert SumWhere(t, PieCountryKey, c, PieWorth) as real == a + b;
        ScaledSum(a, b, w);
      }
    }
  }

  lemma ScaledSum(a: real, b: real, w: real)
    requires w > 0.0
    ensures a / w * 100.0 + b / w * 100.0 == (a + b) / w * 100.0
  {
  }

  /** The rows of `PieTable`, field by field. */
  lemma {:induction false} PieTableShape(df: seq<Record>, g: seq<((string, string), nat)>, t: seq<PieEntry>)
    requires g == GroupSum(df, CountryIndustryKey, Worth) && t == PieTable(df)
    ensures |t| == |g|
    ensures forall i :: 0 <= i < |g| ==> t[i].country == g[i].0.0 && t[i].industry == g[i].0.1 && t[i].finalWorth == g[i].1
    ensures forall i :: 0 <= i < |t| ==> t[i].percentage == Percent(t[i].finalWorth, CountryWorth(df, t[i].country))
  {
  }

  /** The industry percentages of a country with positive worth add up to 100. */
  lemma {:induction false} PieCountryPercentages(df: seq<Record>, c: string)
    requires CountryWorth(df, c) > 0
    ensures CountryPercentSum(PieTable(df), c) == 100.0
  {
    var g := GroupSum(df, CountryIndustryKey, Worth);
    var t := PieTable(df);
    PieTableShape(df, g, t);
    CountryGroupsSum(df, c);
    CountryPercentTotal(t, g, c, CountryWorth(df, c));
  }

  lemma {:induction false} CountryPercentTotal(t: seq<PieEntry>, g: seq<((string, string), nat)>, c: string, w: nat)
    requires w > 0
    requires |t| == |g| && forall i :: 0 <= i < |g| ==> t[i].country == g[i].0.0 && t[i].finalWorth == g[i].1
    requires forall i :: 0 <= i < |t| && t[i].country == c ==> t[i].percentage == Percent(t[i].finalWorth, w)
    requires SumWhere(g, First, c, Value) == w
    ensures CountryPercentSum(t, c) == 100.0
  {
    CountryPercentScaled(t, c, w);
    EntriesSumCountry(g, t, c);
    WholeIs100(w as real);
  }

  lemma WholeIs100(w: real)
    requires w > 0.0
    ensures w / w * 100.0 == 100.0
  {
  }

  // ---------------------------------------------------------------------------
  // Load time

  /** The module-level state of the tabbed app. */
  datatype Store = Store(
    df: seq<Record>,
    billionairesCount: seq<(string, nat)>,
    globalCount: nat,
    pie: seq<PieEntry>,
    global: Stats)

  predicate ValidStore(s: Store)
  {
    && s.billionairesCount == Dashboard.BillionairesCount(s.df)
    && s.globalCount == Total(s.billionairesCount)
    && s.pie == PieTable(s.df)
    && StatsOf(s.df) == Some(s.global)
  }

  lemma {:induction false} AgedKeepsCounts(raw: seq<Record>, df: seq<Record>)
    requires |df| == |raw| && forall i :: 0 <= i < |df| ==> df[i] == raw[i].(ageGroup := AgeBucket(raw[i].age))
    ensures Dashboard.BillionairesCount(df) == Dashboard.BillionairesCount(raw)
    ensures (exists i :: 0 <= i < |df| && df[i].age.Some?) <==> (exists i :: 0 <= i < |raw| && raw[i].age.Some?)
  {
    GroupSumSameColumns(df, raw, CountryKey, One);
    if exists i :: 0 <= i < |raw| && raw[i].age.Some? {
      var i :| 0 <= i < |raw| && raw[i].age.Some?;
      assert df[i].age.Some?;
    }
  }

  /**
   * The module-level statements in order: per-country counts and their sum,
   * the `Age` column, `df_pie` with its two added columns, then the
   * statistics, whose `idxmax`/`idxmin` stop the import when they raise.
   */
  method Load(raw: seq<Record>) returns (r: Result<Store, Dashboard.LoadError>)
    ensures r.Success? <==> exists i :: 0 <= i < |raw| && raw[i].age.Some?
    ensures r.Success? ==> ValidStore(r.value)
    ensures r.Success? ==> (|r.value.df| == |raw| &&
      forall i :: 0 <= i < |raw| ==> r.value.df[i] == raw[i].(ageGroup := AgeBucket(raw[i].age)))
    ensures r.Success? ==> r.value.globalCount == SumKeyed(raw, CountryKey, One)
  {
    var counts := Dashboard.BillionairesCount(raw);
    var globalCount := Total(counts);
    var frame := new DataFrame(raw);
    frame.AddAgeGroup();
    var df := frame.rows;
    AgedKeepsCounts(raw, df);
    var pie := BuildPie(df);
    var stats := StatsOf(df);
    if stats.None? {
      return Failure(Dashboard.StatisticsRaised);
    }
    r := Success(Store(df, counts, globalCount, pie, stats.value));
  }

  /** Lines 26-28: `df_pie` grouped from `df`, then its two columns added in place. */
  method BuildPie(df: seq<Record>) returns (pie: seq<PieEntry>)
    ensures pie == PieTable(df)
  {
    var frame := new PieFrame(GroupSum(df, CountryIndustryKey, Worth));
    frame.AddTotalWealth();
    frame.AddPercentage();
    FrameIsPieTable(df, frame.groups, frame.totalWealth, frame.percentage);
    pie := frame.Entries();
  }

  // ---------------------------------------------------------------------------
  // Line chart

  /** The row is in the clicked country (any without a click) and in a selected industry (any when none are). */
  predicate Plotted(x: Record, location: Option<string>, industries: seq<string>)
  {
    (location.None? || x.country == location) && (industries == [] || x.industry in industries)
  }

  /**
   * The rows a click selects in `update_line_chart` and `update_top_companies_bar_chart`:
   * `df` without a click, otherwise `df[df['country'] == country_code]`.
   */
  function ClickedRows(df: seq<Record>, location: Option<string>): (rows: seq<Record>)
    ensures location.None? ==> rows == df
    ensures location.Some? ==> rows == RowsOfCountry(df, location.value)
    ensures IsSubseq(rows, df)
    ensures forall x :: multiset(rows)[x] == if location.None? || x.country == location then multiset(df)[x] else 0
  {
    SubseqRefl(df);
    if location.None? then df else RowsOfCountry(df, location.value)
  }

  /** The rows `update_line_chart` plots: the clicked rows, then the industry filter. */
  function LineRows(df: seq<Record>, location: Option<string>, industries: seq<string>): (r: seq<Record>)
    ensures IsSubseq(r, df)
    ensures location.None? && industries == [] ==> r == df
    ensures forall i :: 0 <= i < |r| ==> r[i] in df && Plotted(r[i], location, industries)
    ensures forall i :: 0 <= i < |df| && Plotted(df[i], location, industries) ==> df[i] in r
    ensures forall x :: multiset(r)[x] == if Plotted(x, location, industries) then multiset(df)[x] else 0
  {
    var base := ClickedRows(df, location);
    var r := if industries != [] then RowsOfIndustries(base, industries) else base;
    SubseqRefl(base);
    SubseqTrans(r, base, df);
    LineRowsCount(df, location, industries, base, r);
    CountMembers(r, df, (x: Record) => Plotted(x, location, industries));
    r
  }

  /** Each row is kept by both stages as often as it occurs when plotted, and never otherwise. */
  lemma {:induction false} LineRowsCount(df: seq<Record>, location: Option<string>, industries: seq<string>,
                                         base: seq<Record>, r: seq<Record>)
    requires forall x :: multiset(base)[x] == if location.None? || x.country == location then multiset(df)[x] else 0
    requires forall x :: multiset(r)[x] == if industries == [] || x.industry in industries then multiset(base)[x] else 0
    ensures forall x :: multiset(r)[x] == if Plotted(x, location, industries) then multiset(df)[x] else 0
  {
    forall x ensures multiset(r)[x] == if Plotted(x, location, industries) then multiset(df)[x] else 0 {
      assert multiset(base)[x] == if location.None? || x.country == location then multiset(df)[x] else 0;
    }
  }

  /** What the line chart is drawn from: totals per `Age`, or per (`Age`, industry) when industries are selected. */
  datatype LineData = ByAge(points: seq<(int, nat)>) | ByAgeIndustry(series: seq<((int, string), nat)>)

  function AgeTotals(rows: seq<Record>): (points: seq<(int, nat)>)
    ensures DistinctKeys(points)
    ensures forall a :: Lookup(points, a) == SumWhere(rows, AgeGroupKey, a, Worth)
    ensures forall a :: HasKey(points, a) <==> exists i :: 0 <= i < |rows| && rows[i].ageGroup == Some(a)
    ensures Total(points) == SumKeyed(rows, AgeGroupKey, Worth)
  {
    GroupSumDistinct(rows, AgeGroupKey, Worth);
    GroupSumTotal(rows, AgeGroupKey, Worth);
    forall a ensures Lookup(GroupSum(rows, AgeGroupKey, Worth), a) == SumWhere(rows, AgeGroupKey, a, Worth)
      ensures HasKey(GroupSum(rows, AgeGroupKey, Worth), a) <==> exists i :: 0 <= i < |rows| && rows[i].ageGroup == Some(a)
    {
      GroupSumLookup(rows, AgeGroupKey, Worth, a);
      GroupSumHasKey(rows, AgeGroupKey, Worth, a);
    }
    GroupSum(rows, AgeGroupKey, Worth)
  }

  function AgeIndustryTotals(rows: seq<Record>): (series: seq<((int, string), nat)>)
    ensures DistinctKeys(series)
    ensures forall k :: Lookup(series, k) == SumWhere(rows, AgeGroupIndustryKey, k, Worth)
    ensures Total(series) == SumKeyed(rows, AgeGroupIndustryKey, Worth)
  {
    GroupSumDistinct(rows, AgeGroupIndustryKey, Worth);
    GroupSumTotal(rows, AgeGroupIndustryKey, Worth);
    forall k ensures Lookup(GroupSum(rows, AgeGroupIndustryKey, Worth), k) == SumWhere(rows, AgeGroupIndustryKey, k, Worth) {
      GroupSumLookup(rows, AgeGroupIndustryKey, Worth, k);
    }
    GroupSum(rows, AgeGroupIndustryKey, Worth)
  }

  /** `update_line_chart`'s data. */
  function UpdateLineChart(df: seq<Record>, location: Option<string>, industries: seq<string>): (d: LineData)
    ensures d.ByAgeIndustry? <==> industries != []
    ensures d.ByAge? ==> d.points == AgeTotals(LineRows(df, location, industries))
    ensures d.ByAgeIndustry? ==> d.series == AgeIndustryTotals(LineRows(df, location, industries))
  {
    var rows := LineRows(df, location, industries);
    if industries != [] then ByAgeIndustry(AgeIndustryTotals(rows)) else ByAge(AgeTotals(rows))
  }

  /** Without a click or an industry selection, the line chart's totals add up to the worth of every row with an `Age`. */
  lemma {:induction false} LineChartGlobalTotal(df: seq<Record>)
    requires forall i :: 0 <= i < |df| ==> df[i].ageGroup.Some?
    ensures Total(UpdateLineChart(df, None, []).points) == SumOf(df, Worth)
  {
    SumKeyedAll(df, AgeGroupKey, Worth);
  }

  // ---------------------------------------------------------------------------
  // Pie chart

  /** The table `update_pie_chart` hands to the chart. */
  datatype PieData = GlobalPie(byIndustry: seq<(string, nat)>) | CountryPie(entries: seq<PieEntry>)

  /**
   * `update_pie_chart`'s data: without a click, `df_pie` regrouped by
   * industry; with one, the `df_pie` rows of the clicked country.
   */
  function UpdatePieChart(pie: seq<PieEntry>, location: Option<string>): (d: PieData)
    ensures location.None? <==> d.GlobalPie?
    ensures d.GlobalPie? ==> DistinctKeys(d.byIndustry)
    ensures d.GlobalPie? ==> forall ind :: Lookup(d.byIndustry, ind) == SumWhere(pie, PieIndustryKey, ind, PieWorth)
    ensures d.CountryPie? ==> IsSubseq(d.entries, pie)
    ensures d.CountryPie? ==> forall i :: 0 <= i < |d.entries| ==> d.entries[i] in pie && d.entries[i].country == location.value
    ensures d.CountryPie? ==> forall i :: 0 <= i < |pie| && pie[i].country == location.value ==> pie[i] in d.entries
    ensures d.CountryPie? ==> forall x :: multiset(d.entries)[x] == if x.country == location.value then multiset(pie)[x] else 0
  {
    match location
    case None =>
      GroupSumDistinct(pie, PieIndustryKey, PieWorth);
      forall ind ensures Lookup(GroupSum(pie, PieIndustryKey, PieWorth), ind) == SumWhere(pie, PieIndustryKey, ind, PieWorth) {
        GroupSumLookup(pie, PieIndustryKey, PieWorth, ind);
      }
      GlobalPie(GroupSum(pie, PieIndustryKey, PieWorth))
    case Some(code) =>
      CountryPie(Where(pie, (e: PieEntry) => e.country == code))
  }

  /**
   * The global pie regrouped from `df_pie` gives each industry the worth of
   * its rows that have a country, and so the per-industry worth of `df` when
   * every row has one.
   */
  lemma {:induction false} GlobalPieMatchesRows(df: seq<Record>, ind: string)
    ensures Lookup(UpdatePieChart(PieTable(df), None).byIndustry, ind) == SumWhereSecond(df, CountryIndustryKey, ind, Worth)
    ensures (forall i :: 0 <= i < |df| ==> df[i].country.Some?) ==>
      Lookup(UpdatePieChart(PieTable(df), None).byIndustry, ind) == IndustryWorth(df, ind)
  {
    var g := GroupSum(df, CountryIndustryKey, Worth);
    EntriesSumIndustry(g, PieTable(df), ind);
    GroupSumSumSecond(df, CountryIndustryKey, Worth, ind);
    if forall i :: 0 <= i < |df| ==> df[i].country.Some? {
      SecondIsIndustryWorth(df, ind);
    }
  }

  lemma {:induction false} SecondIsIndustryWorth(rows: seq<Record>, ind: string)
    requires forall i :: 0 <= i < |rows| ==> rows[i].country.Some?
    ensures SumWhereSecond(rows, CountryIndustryKey, ind, Worth) == IndustryWorth(rows, ind)
  {
    if rows != [] {
      SecondIsIndustryWorth(rows[1..], ind);
    }
  }

  /** A clicked country with positive worth gets a pie whose percentages add up to 100. */
  lemma {:induction false} CountryPieSumsTo100(s: Store, code: string)
    requires ValidStore(s) && CountryWorth(s.df, code) > 0
    ensures CountryPercentSum(UpdatePieChart(s.pie, Some(code)).entries, code) == 100.0
  {
    PieCountryPercentages(s.df, code);
    WherePercentSum(s.pie, code);
  }

  /** Keeping only the rows of `c` does not change `c`'s percentage sum. */
  lemma {:induction false} WherePercentSum(t: seq<PieEntry>, c: string)
    ensures CountryPercentSum(Where(t, (e: PieEntry) => e.country == c), c) == CountryPercentSum(t, c)
  {
    if t != [] {
      WherePercentSum(t[1..], c);
      var p := (e: PieEntry) => e.country == c;
      if p(t[0]) {
        assert Where(t, p) == [t[0]] + Where(t[1..], p);
        assert ([t[0]] + Where(t[1..], p))[1..] == Where(t[1..], p);
      }
    }
  }

  // ---------------------------------------------------------------------------
  // Count text

  /**
   * `update_billionaire_count_text`: the clicked country's name and count
   * when the code is known to `countryName` and has rows; otherwise (no
   * click, unknown code, or the count lookup raising) the global count.
   */
  function UpdateBillionaireCountText(s: Store, location: Option<string>, countryName: string -> Option<string>)
    : (t: Dashboard.CountText)
    requires ValidStore(s)
    ensures location.None? ==> t == Dashboard.GlobalCount(s.globalCount)
    ensures location.Some? && countryName(location.value).None? ==> t == Dashboard.GlobalCount(s.globalCount)
    ensures location.Some? && countryName(location.value).Some? ==>
      if exists i :: 0 <= i < |s.df| && s.df[i].country == location
      then t == Dashboard.SelectedCountry(countryName(location.value).value, |RowsOfCountry(s.df, location.value)|)
      else t == Dashboard.GlobalCount(s.globalCount)
  {
    match location
    case None => Dashboard.GlobalCount(s.globalCount)
    case Some(code) =>
      match countryName(code)
      case None => Dashboard.GlobalCount(s.globalCount)
      case Some(name) =>
        match Dashboard.CountFor(s.billionairesCount, code)
        case None => Dashboard.GlobalCount(s.globalCount)
        case Some(n) => Dashboard.SelectedCountry(name, n)
  }

  // ---------------------------------------------------------------------------
  // Top companies bar chart

  /** `groupby('source')['finalWorth'].sum()`, sorted descending, first ten. */
  function TopCompanies(rows: seq<Record>): (top: seq<(string, nat)>)
    ensures |top| <= 10 && SortedDesc(top) && DistinctKeys(top)
    ensures forall i :: 0 <= i < |top| ==> top[i].1 == SourceWorth(rows, top[i].0)
    ensures forall i :: 0 <= i < |top| ==> exists j :: 0 <= j < |rows| && rows[j].source == top[i].0
    ensures forall j :: 0 <= j < |rows| && !HasKey(top, rows[j].source) ==>
      |top| == 10 && forall i :: 0 <= i < |top| ==> top[i].1 >= SourceWorth(rows, rows[j].source)
  {
    var g := GroupSum(rows, SourceKey, Worth);
    var top := TopN(g, 10);
    GroupSumDistinct(rows, SourceKey, Worth);
    TopNShape(g, 10);
    TopCompanyEntries(rows, g, top);
    forall j | 0 <= j < |rows| && !HasKey(top, rows[j].source)
      ensures |top| == 10 && forall i :: 0 <= i < |top| ==> top[i].1 >= SourceWorth(rows, rows[j].source)
    {
      DroppedCompany(rows, g, top, j);
    }
    top
  }

  lemma {:induction false} TopCompanyEntries(rows: seq<Record>, g: seq<(string, nat)>, top: seq<(string, nat)>)
    requires g == GroupSum(rows, SourceKey, Worth) && top == TopN(g, 10)
    ensures forall i :: 0 <= i < |top| ==> top[i].1 == SourceWorth(rows, top[i].0)
    ensures forall i :: 0 <= i < |top| ==> exists j :: 0 <= j < |rows| && rows[j].source == top[i].0
  {
    GroupSumDistinct(rows, SourceKey, Worth);
    TopNShape(g, 10);
    forall i | 0 <= i < |top|
      ensures top[i].1 == SourceWorth(rows, top[i].0)
      ensures exists j :: 0 <= j < |rows| && rows[j].source == top[i].0
    {
      var p :| 0 <= p < |g| && g[p] == top[i];
      LookupEntry(g, p);
      GroupSumLookup(rows, SourceKey, Worth, g[p].0);
      assert HasKey(g, g[p].0);
      GroupSumHasKey(rows, SourceKey, Worth, g[p].0);
      var j :| 0 <= j < |rows| && SourceKey(rows[j]) == Some(g[p].0);
    }
  }

  lemma {:induction false} DroppedCompany(rows: seq<Record>, g: seq<(string, nat)>, top: seq<(string, nat)>, j: nat)
    requires g == GroupSum(rows, SourceKey, Worth) && top == TopN(g, 10)
    requires j < |rows| && !HasKey(top, rows[j].source)
    ensures |top| == 10 && forall i :: 0 <= i < |top| ==> top[i].1 >= SourceWorth(rows, rows[j].source)
  {
    var s := rows[j].source;
    GroupSumDistinct(rows, SourceKey, Worth);
    GroupSumHasKey(rows, SourceKey, Worth, s);
    assert SourceKey(rows[j]) == Some(s);
    var e :| 0 <= e < |g| && g[e].0 == s;
    LookupEntry(g, e);
    GroupSumLookup(rows, SourceKey, Worth, s);
    TopNDominates(g, 10, g[e]);
    TopNShape(g, 10);
    if |g| <= 10 {
      TopNKeepsAll(g, 10, s);
    }
  }

  /** The (source, industry) pair of every row, in load order: `df[['source', 'industries']]`. */
  function PairsOf(df: seq<Record>): (all: seq<(string, string)>)
    ensures |all| == |df|
  {
    seq(|df|, j requires 0 <= j < |df| => (df[j].source, df[j].industry))
  }

  /** `df[['source', 'industries']].drop_duplicates()`. */
  function SourceIndustryPairs(df: seq<Record>): (pairs: seq<(string, string)>)
    ensures NoDuplicates(pairs)
    ensures forall x :: x in pairs ==> x in PairsOf(df)
    ensures forall j :: 0 <= j < |df| ==> (df[j].source, df[j].industry) in pairs
  {
    var all := PairsOf(df);
    assert forall j :: 0 <= j < |df| ==> all[j] == (df[j].source, df[j].industry);
    Dedup(all)
  }

  /** One bar segment: a company, its total and one of its industries (None when the merge finds none). */
  datatype CompanyBar = CompanyBar(source: string, finalWorth: nat, industry: Option<string>)

  /** No (source, industry) pair has this source: the left merge finds nothing for it. */
  predicate Unmatched(pairs: seq<(string, string)>, source: string)
  {
    forall k :: 0 <= k < |pairs| ==> pairs[k].0 != source
  }

  /** The right-hand rows of the merge that match one company. */
  function Matches(e: (string, nat), pairs: seq<(string, string)>): (bars: seq<CompanyBar>)
    ensures forall i :: 0 <= i < |bars| ==> bars[i].source == e.0 && bars[i].finalWorth == e.1
    ensures forall i :: 0 <= i < |bars| && bars[i].industry.Some? ==> (e.0, bars[i].industry.value) in pairs
    ensures forall i :: 0 <= i < |pairs| && pairs[i].0 == e.0 ==> CompanyBar(e.0, e.1, Some(pairs[i].1)) in bars
    ensures forall i :: 0 <= i < |bars| && bars[i].industry.None? ==> Unmatched(pairs, e.0)
    ensures Unmatched(pairs, e.0) ==> bars == [CompanyBar(e.0, e.1, None)]
    ensures |bars| >= 1
  {
    var m := Where(pairs, (p: (string, string)) => p.0 == e.0);
    var bars := if m == [] then [CompanyBar(e.0, e.1, None)]
                else seq(|m|, i requires 0 <= i < |m| => CompanyBar(e.0, e.1, Some(m[i].1)));
    MatchesFound(e, pairs, m, bars);
    bars
  }

  /** The bars built from the pairs a mask kept for one company. */
  lemma {:induction false} MatchesFound(e: (string, nat), pairs: seq<(string, string)>, m: seq<(string, string)>, bars: seq<CompanyBar>)
    requires forall i :: 0 <= i < |m| ==> m[i] in pairs && m[i].0 == e.0
    requires forall i :: 0 <= i < |pairs| && pairs[i].0 == e.0 ==> pairs[i] in m
    requires bars == if m == [] then [CompanyBar(e.0, e.1, None)]
                     else seq(|m|, i requires 0 <= i < |m| => CompanyBar(e.0, e.1, Some(m[i].1)))
    ensures forall i :: 0 <= i < |bars| ==> bars[i].source == e.0 && bars[i].finalWorth == e.1
    ensures forall i :: 0 <= i < |bars| && bars[i].industry.Some? ==> (e.0, bars[i].industry.value) in pairs
    ensures forall i :: 0 <= i < |pairs| && pairs[i].0 == e.0 ==> CompanyBar(e.0, e.1, Some(pairs[i].1)) in bars
    ensures forall i :: 0 <= i < |bars| && bars[i].industry.None? ==> Unmatched(pairs, e.0)
    ensures Unmatched(pairs, e.0) ==> bars == [CompanyBar(e.0, e.1, None)]
    ensures |bars| >= 1
  {
    if m != [] {
      forall i | 0 <= i < |bars| && bars[i].industry.Some?
        ensures (e.0, bars[i].industry.value) in pairs
      {
        assert m[i] == (e.0, m[i].1);
      }
      forall i | 0 <= i < |pairs| && pairs[i].0 == e.0
        ensures CompanyBar(e.0, e.1, Some(pairs[i].1)) in bars
      {
        var k :| 0 <= k < |m| && m[k] == pairs[i];
        assert bars[k] == CompanyBar(e.0, e.1, Some(pairs[i].1));
      }
      assert m[0] in pairs;
      var k :| 0 <= k < |pairs| && pairs[k] == m[0];
      assert !Unmatched(pairs, e.0);
    }
  }

  /** `top_companies.merge(pairs, on='source', how='left')`: each company, in order, once per matching pair. */
  function LeftMerge(top: seq<(string, nat)>, pairs: seq<(string, string)>): (bars: seq<CompanyBar>)
    ensures |bars| >= |top|
    ensures forall i :: 0 <= i < |bars| ==> (bars[i].source, bars[i].finalWorth) in top
    ensures forall i :: 0 <= i < |bars| && bars[i].industry.Some? ==> (bars[i].source, bars[i].industry.value) in pairs
    ensures forall i, k :: 0 <= i < |top| && 0 <= k < |pairs| && pairs[k].0 == top[i].0 ==>
      CompanyBar(top[i].0, top[i].1, Some(pairs[k].1)) in bars
    ensures forall i :: 0 <= i < |bars| && bars[i].industry.None? ==> Unmatched(pairs, bars[i].source)
    ensures forall i :: 0 <= i < |top| && Unmatched(pairs, top[i].0) ==> CompanyBar(top[i].0, top[i].1, None) in bars
  {
    if top == [] then []
    else
      var head := Matches(top[0], pairs);
      var rest := LeftMerge(top[1..], pairs);
      LeftMergeInTop(top, head, rest);
      LeftMergeInPairs(pairs, head, rest);
      LeftMergeCovers(top, pairs, head, rest);
      LeftMergeKeepsUnmatched(top, pairs, head, rest);
      head + rest
  }

  lemma {:induction false} LeftMergeInTop(top: seq<(string, nat)>, head: seq<CompanyBar>, rest: seq<CompanyBar>)
    requires top != []
    requires forall i :: 0 <= i < |head| ==> head[i].source == top[0].0 && head[i].finalWorth == top[0].1
    requires forall i :: 0 <= i < |rest| ==> (rest[i].source, rest[i].finalWorth) in top[1..]
    ensures forall i :: 0 <= i < |head + rest| ==> ((head + rest)[i].source, (head + rest)[i].finalWorth) in top
  {
    forall i | 0 <= i < |head + rest|
      ensures ((head + rest)[i].source, (head + rest)[i].finalWorth) in top
    {
      if i < |head| {
        assert (head + rest)[i] == head[i];
      } else {
        var x := rest[i - |head|];
        assert (head + rest)[i] == x;
        assert (x.source, x.finalWorth) in top[1..];
      }
    }
  }

  lemma {:induction false} LeftMergeInPairs(pairs: seq<(string, string)>, head: seq<CompanyBar>, rest: seq<CompanyBar>)
    requires forall i :: 0 <= i < |head| && head[i].industry.Some? ==> (head[i].source, head[i].industry.value) in pairs
    requires forall i :: 0 <= i < |rest| && rest[i].industry.Some? ==> (rest[i].source, rest[i].industry.value) in pairs
    requires forall i :: 0 <= i < |head| && head[i].industry.None? ==>
      forall k :: 0 <= k < |pairs| ==> pairs[k].0 != head[i].source
    requires forall i :: 0 <= i < |rest| && rest[i].industry.None? ==>
      forall k :: 0 <= k < |pairs| ==> pairs[k].0 != rest[i].source
    ensures forall i :: 0 <= i < |head + rest| && (head + rest)[i].industry.Some? ==>
      ((head + rest)[i].source, (head + rest)[i].industry.value) in pairs
    ensures forall i :: 0 <= i < |head + rest| && (head + rest)[i].industry.None? ==>
      forall k :: 0 <= k < |pairs| ==> pairs[k].0 != (head + rest)[i].source
  {
    forall i | 0 <= i < |head + rest|
      ensures (head + rest)[i] == if i < |head| then head[i] else rest[i - |head|]
    {
    }
  }

  lemma {:induction false} LeftMergeCovers(top: seq<(string, nat)>, pairs: seq<(string, string)>,
                                           head: seq<CompanyBar>, rest: seq<CompanyBar>)
    requires top != []
    requires forall k :: 0 <= k < |pairs| && pairs[k].0 == top[0].0 ==> CompanyBar(top[0].0, top[0].1, Some(pairs[k].1)) in head
    requires forall i, k :: 0 <= i < |top[1..]| && 0 <= k < |pairs| && pairs[k].0 == top[1..][i].0 ==>
      CompanyBar(top[1..][i].0, top[1..][i].1, Some(pairs[k].1)) in rest
    ensures forall i, k :: 0 <= i < |top| && 0 <= k < |pairs| && pairs[k].0 == top[i].0 ==>
      CompanyBar(top[i].0, top[i].1, Some(pairs[k].1)) in head + rest
  {
    forall i, k | 0 <= i < |top| && 0 <= k < |pairs| && pairs[k].0 == top[i].0
      ensures CompanyBar(top[i].0, top[i].1, Some(pairs[k].1)) in head + rest
    {
      if i > 0 {
        assert top[1..][i - 1] == top[i];
      }
    }
  }

  /** A company without pairs is kept once, with its industry missing. */
  lemma {:induction false} LeftMergeKeepsUnmatched(top: seq<(string, nat)>, pairs: seq<(string, string)>,
                                                   head: seq<CompanyBar>, rest: seq<CompanyBar>)
    requires top != [] && (Unmatched(pairs, top[0].0) ==> head == [CompanyBar(top[0].0, top[0].1, None)])
    requires forall i :: 0 <= i < |top[1..]| && Unmatched(pairs, top[1..][i].0) ==>
      CompanyBar(top[1..][i].0, top[1..][i].1, None) in rest
    ensures forall i :: 0 <= i < |top| && Unmatched(pairs, top[i].0) ==> CompanyBar(top[i].0, top[i].1, None) in head + rest
  {
    forall i | 0 <= i < |top| && Unmatched(pairs, top[i].0)
      ensures CompanyBar(top[i].0, top[i].1, None) in head + rest
    {
      if i > 0 {
        assert top[1..][i - 1] == top[i];
      }
    }
  }

  lemma {:induction false} MatchesNoDuplicates(e: (string, nat), pairs: seq<(string, string)>)
    requires NoDuplicates(pairs)
    ensures NoDuplicates(Matches(e, pairs))
  {
    var m := Where(pairs, (p: (string, string)) => p.0 == e.0);
    WhereNoDuplicates(pairs, (p: (string, string)) => p.0 == e.0);
    var bars := Matches(e, pairs);
    if m != [] {
      forall i, j | 0 <= i < j < |bars| ensures bars[i] != bars[j] {
        assert m[i] != m[j];
        assert m[i].0 == e.0 && m[j].0 == e.0;
      }
    }
  }

  /** Distinct companies and distinct (company, industry) pairs give distinct bars. */
  lemma {:induction false} LeftMergeNoDuplicates(top: seq<(string, nat)>, pairs: seq<(string, string)>)
    requires DistinctKeys(top) && NoDuplicates(pairs)
    ensures NoDuplicates(LeftMerge(top, pairs))
  {
    if top != [] {
      assert DistinctKeys(top[1..]) by {
        forall i, j | 0 <= i < j < |top[1..]| ensures top[1..][i].0 != top[1..][j].0 {
          assert top[1..][i] == top[i + 1] && top[1..][j] == top[j + 1];
        }
      }
      LeftMergeNoDuplicates(top[1..], pairs);
      MatchesNoDuplicates(top[0], pairs);
      var head, rest := Matches(top[0], pairs), LeftMerge(top[1..], pairs);
      HeadRestDisjoint(top, pairs, head, rest);
      AppendNoDuplicates(head, rest);
    }
  }

  lemma {:induction false} HeadRestDisjoint(top: seq<(string, nat)>, pairs: seq<(string, string)>,
                                            head: seq<CompanyBar>, rest: seq<CompanyBar>)
    requires DistinctKeys(top) && top != []
    requires head == Matches(top[0], pairs) && rest == LeftMerge(top[1..], pairs)
    ensures forall i, j :: 0 <= i < |head| && 0 <= j < |rest| ==> head[i] != rest[j]
  {
    forall i, j | 0 <= i < |head| && 0 <= j < |rest| ensures head[i] != rest[j] {
      var t :| 0 <= t < |top[1..]| && top[1..][t] == (rest[j].source, rest[j].finalWorth);
      assert top[t + 1].0 != top[0].0;
    }
  }

  /**
   * `update_top_companies_bar_chart`'s data: the ten richest companies of the
   * clicked country (or of all rows), each joined with every industry it has
   * anywhere in the table. Every bar belongs to one of the ten companies and
   * carries its total, its industry is one the company has in the table, and
   * each ranked company appears once per industry it has, never with a
   * missing industry.
   */
  function UpdateTopCompaniesBarChart(df: seq<Record>, location: Option<string>): (bars: seq<CompanyBar>)
    ensures MergedTopCompanies(df, TopCompanies(ClickedRows(df, location)), bars)
  {
    var rows := ClickedRows(df, location);
    TopCompanyBarsOf(df, rows, TopCompanies(rows));
    LeftMerge(TopCompanies(rows), SourceIndustryPairs(df))
  }

  /** What the merged bar table promises about the ranked companies `top` of a table `df`. */
  predicate MergedTopCompanies(df: seq<Record>, top: seq<(string, nat)>, bars: seq<CompanyBar>)
  {
    && (forall i :: 0 <= i < |bars| ==> (bars[i].source, bars[i].finalWorth) in top)
    && NoDuplicates(bars)
    && (forall i :: 0 <= i < |bars| ==> bars[i].industry.Some?)
    && (forall i :: 0 <= i < |bars| ==> BarInTable(df, bars[i]))
    && (forall i, j :: 0 <= i < |top| && 0 <= j < |df| && df[j].source == top[i].0 ==>
          CompanyBar(top[i].0, top[i].1, Some(df[j].industry)) in bars)
  }

  /** Some row of `df` has the bar's company and industry. */
  predicate BarInTable(df: seq<Record>, b: CompanyBar)
  {
    exists j :: 0 <= j < |df| && df[j].source == b.source && Some(df[j].industry) == b.industry
  }

  /** The merge of any distinct companies drawn from rows of `df`. */
  lemma {:induction false} TopCompanyBarsOf(df: seq<Record>, rows: seq<Record>, top: seq<(string, nat)>)
    requires forall x :: x in rows ==> x in df
    requires DistinctKeys(top)
    requires forall t :: 0 <= t < |top| ==> exists r :: 0 <= r < |rows| && rows[r].source == top[t].0
    ensures MergedTopCompanies(df, top, LeftMerge(top, SourceIndustryPairs(df)))
  {
    var pairs := SourceIndustryPairs(df);
    var bars := LeftMerge(top, pairs);
    LeftMergeNoDuplicates(top, pairs);
    MergedBars(df, rows, top, pairs, bars);
    BarsCoverTable(df, top, pairs, bars);
  }

  lemma {:induction false} MergedBars(df: seq<Record>, rows: seq<Record>, top: seq<(string, nat)>,
                                      pairs: seq<(string, string)>, bars: seq<CompanyBar>)
    requires forall x :: x in rows ==> x in df
    requires forall t :: 0 <= t < |top| ==> exists r :: 0 <= r < |rows| && rows[r].source == top[t].0
    requires forall j :: 0 <= j < |df| ==> (df[j].source, df[j].industry) in pairs
    requires forall x :: x in pairs ==> x in PairsOf(df)
    requires forall i :: 0 <= i < |bars| ==> (bars[i].source, bars[i].finalWorth) in top
    requires forall i :: 0 <= i < |bars| && bars[i].industry.Some? ==> (bars[i].source, bars[i].industry.value) in pairs
    requires forall i :: 0 <= i < |bars| && bars[i].industry.None? ==>
      forall k :: 0 <= k < |pairs| ==> pairs[k].0 != bars[i].source
    ensures forall i :: 0 <= i < |bars| ==> bars[i].industry.Some? && BarInTable(df, bars[i])
  {
    forall i | 0 <= i < |bars|
      ensures bars[i].industry.Some? && BarInTable(df, bars[i])
    {
      BarHasIndustry(df, rows, top, pairs, bars, i);
    }
  }

  lemma {:induction false} BarsCoverTable(df: seq<Record>, top: seq<(string, nat)>, pairs: seq<(string, string)>,
                                          bars: seq<CompanyBar>)
    requires forall j :: 0 <= j < |df| ==> (df[j].source, df[j].industry) in pairs
    requires forall i, k :: 0 <= i < |top| && 0 <= k < |pairs| && pairs[k].0 == top[i].0 ==>
      CompanyBar(top[i].0, top[i].1, Some(pairs[k].1)) in bars
    ensures forall i, j :: 0 <= i < |top| && 0 <= j < |df| && df[j].source == top[i].0 ==>
      CompanyBar(top[i].0, top[i].1, Some(df[j].industry)) in bars
  {
    forall i, j | 0 <= i < |top| && 0 <= j < |df| && df[j].source == top[i].0
      ensures CompanyBar(top[i].0, top[i].1, Some(df[j].industry)) in bars
    {
      var k :| 0 <= k < |pairs| && pairs[k] == (df[j].source, df[j].industry);
    }
  }

  /** A bar of a ranked company always finds an industry, since the company occurs in the table. */
  lemma {:induction false} BarHasIndustry(df: seq<Record>, rows: seq<Record>, top: seq<(string, nat)>,
                                          pairs: seq<(string, string)>, bars: seq<CompanyBar>, i: nat)
    requires forall x :: x in rows ==> x in df
    requires forall t :: 0 <= t < |top| ==> exists r :: 0 <= r < |rows| && rows[r].source == top[t].0
    requires forall j :: 0 <= j < |df| ==> (df[j].source, df[j].industry) in pairs
    requires forall x :: x in pairs ==> x in PairsOf(df)
    requires i < |bars| && (bars[i].source, bars[i].finalWorth) in top
    requires bars[i].industry.Some? ==> (bars[i].source, bars[i].industry.value) in pairs
    requires bars[i].industry.None? ==> forall k :: 0 <= k < |pairs| ==> pairs[k].0 != bars[i].source
    ensures bars[i].industry.Some? && BarInTable(df, bars[i])
  {
    var t :| 0 <= t < |top| && top[t] == (bars[i].source, bars[i].finalWorth);
    var r :| 0 <= r < |rows| && rows[r].source == top[t].0;
    assert rows[r] in rows;
    var j :| 0 <= j < |df| && df[j] == rows[r];
    var k :| 0 <= k < |pairs| && pairs[k] == (df[j].source, df[j].industry);
    assert pairs[k].0 == bars[i].source;
    var all := PairsOf(df);
    var j2 :| 0 <= j2 < |all| && all[j2] == (bars[i].source, bars[i].industry.value);
    assert all[j2] == (df[j2].source, df[j2].industry);
  }
}
