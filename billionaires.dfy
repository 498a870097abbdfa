/**
 * The billionaires table shared by both dashboard variants: the row type, the
 * two load-time derivations written into the table in place, the key and
 * weight columns the engine groups by, the row filters and the per-table
 * statistics (richest, youngest, oldest, top industry, top company).
 */
module Billionaires {
  import opened Options
  import opened Sequences
  import opened Grouping
  import opened Ranking

  /** One row of the dataset; `finalWorth` is in millions of dollars, None stands for NaN. */
  datatype Record = Record(
    name: string,
    finalWorth: nat,
    age: Option<int>,
    gender: string,
    country: Option<string>,   // ISO-3 code of the country of residence
    citizenship: string,       // countryOfCitizenship
    industry: string,          // industries
    source: string,
    ageGroup: Option<int>)     // age_group (or Age): None until derived, and for rows without an age

  // ---------------------------------------------------------------------------
  // Load-time derivations

  /** `(age // 10) * 10`: the decade an age falls in; a missing age stays missing. */
  function AgeBucket(age: Option<int>): (b: Option<int>)
    ensures b.Some? <==> age.Some?
    ensures age.Some? ==> b.value % 10 == 0 && b.value <= age.value < b.value + 10
  {
    match age
    case None => None
    // Python's // floors; for the positive divisor 10 Dafny's Euclidean / is the same
    case Some(a) => Some((a / 10) * 10)
  }

  /** `replace({'M': 'Male', 'F': 'Female'})`: the two single-letter codes get labels, anything else passes through. */
  function NormalizeGender(g: string): (r: string)
    ensures g == "M" ==> r == "Male"
    ensures g == "F" ==> r == "Female"
    ensures g != "M" && g != "F" ==> r == g
  {
    if g == "M" then "Male" else if g == "F" then "Female" else g
  }

  /** Normalising twice is normalising once. */
  lemma {:induction false} NormalizeGenderIdempotent(g: string)
    ensures NormalizeGender(NormalizeGender(g)) == NormalizeGender(g)
  {
    assert "Male" != "M" && "Male" != "F" && "Female" != "M" && "Female" != "F";
  }

  /** The module-level `df` that the load-time statements write columns into. */
  class DataFrame {
    var rows: seq<Record>

    constructor (loaded: seq<Record>)
      ensures rows == loaded
    {
      rows := loaded;
    }

    /** `df['age_group'] = (df['age'] // 10) * 10`; the tabbed variant names the column `Age`. */
    method AddAgeGroup()
      modifies this
      ensures |rows| == |old(rows)|
      ensures forall i :: 0 <= i < |rows| ==> rows[i] == old(rows)[i].(ageGroup := AgeBucket(old(rows)[i].age))
    {
      var before := rows;
      rows := seq(|before|, i requires 0 <= i < |before| => before[i].(ageGroup := AgeBucket(before[i].age)));
    }

    /** `df['gender'] = df['gender'].replace({'M': 'Male', 'F': 'Female'})`. */
    method NormalizeGenders()
      modifies this
      ensures |rows| == |old(rows)|
      ensures forall i :: 0 <= i < |rows| ==> rows[i] == old(rows)[i].(gender := NormalizeGender(old(rows)[i].gender))
    {
      var before := rows;
      rows := seq(|before|, i requires 0 <= i < |before| => before[i].(gender := NormalizeGender(before[i].gender)));
    }
  }

  // ---------------------------------------------------------------------------
  // Columns used as group keys, scores and weights

  function CountryKey(r: Record): Option<string>
  {
    r.country
  }

  function IndustryKey(r: Record): Option<string>
  {
    Some(r.industry)
  }

  function SourceKey(r: Record): Option<string>
  {
    Some(r.source)
  }

  function AgeGroupKey(r: Record): Option<int>
  {
    r.ageGroup
  }

  /** Key of `groupby(['age_group', 'gender'])`. */
  function AgeGroupGenderKey(r: Record): Option<(int, string)>
  {
    if r.ageGroup.Some? then Some((r.ageGroup.value, r.gender)) else None
  }

  /** Key of `groupby(['age', 'industries'])`. */
  function AgeIndustryKey(r: Record): Option<(int, string)>
  {
    if r.age.Some? then Some((r.age.value, r.industry)) else None
  }

  /** Key of `groupby(['Age', 'industries'])`. */
  function AgeGroupIndustryKey(r: Record): Option<(int, string)>
  {
    if r.ageGroup.Some? then Some((r.ageGroup.value, r.industry)) else None
  }

  /** Key of `groupby(['source', 'industries'])`. */
  function SourceIndustryKey(r: Record): Option<(string, string)>
  {
    Some((r.source, r.industry))
  }

  /** Key of `groupby(['country', 'industries'])`. */
  function CountryIndustryKey(r: Record): Option<(string, string)>
  {
    if r.country.Some? then Some((r.country.value, r.industry)) else None
  }

  function Worth(r: Record): nat
  {
    r.finalWorth
  }

  function WorthScore(r: Record): Option<int>
  {
    Some(r.finalWorth)
  }

  function AgeScore(r: Record): Option<int>
  {
    r.age
  }

  /** Total `finalWorth` of the rows with a given industry. */
  function IndustryWorth(rows: seq<Record>, industry: string): nat
  {
    SumWhere(rows, IndustryKey, industry, Worth)
  }

  /** Total `finalWorth` of the rows with a given source. */
  function SourceWorth(rows: seq<Record>, source: string): nat
  {
    SumWhere(rows, SourceKey, source, Worth)
  }

  /** Total `finalWorth` of the rows with a given country code. */
  function CountryWorth(rows: seq<Record>, code: string): nat
  {
    SumWhere(rows, CountryKey, code, Worth)
  }

  // ---------------------------------------------------------------------------
  // Row filters

  /** `df[df['country'] == code]`. */
  function RowsOfCountry(rows: seq<Record>, code: string): (r: seq<Record>)
    ensures IsSubseq(r, rows)
    ensures forall i :: 0 <= i < |r| ==> r[i].country == Some(code)
    ensures forall i :: 0 <= i < |rows| && rows[i].country == Some(code) ==> rows[i] in r
    ensures forall x :: multiset(r)[x] == if x.country == Some(code) then multiset(rows)[x] else 0
  {
    Where(rows, (x: Record) => x.country == Some(code))
  }

  /** `df[df['industries'].isin(industries)]`. */
  function RowsOfIndustries(rows: seq<Record>, industries: seq<string>): (r: seq<Record>)
    ensures IsSubseq(r, rows)
    ensures forall i :: 0 <= i < |r| ==> r[i].industry in industries
    ensures forall i :: 0 <= i < |rows| && rows[i].industry in industries ==> rows[i] in r
    ensures forall x :: multiset(r)[x] == if x.industry in industries then multiset(rows)[x] else 0
  {
    Where(rows, (x: Record) => x.industry in industries)
  }

  /** `df[df['countryOfCitizenship'].isin(countries)]`. */
  function RowsOfCitizenships(rows: seq<Record>, countries: seq<string>): (r: seq<Record>)
    ensures IsSubseq(r, rows)
    ensures forall i :: 0 <= i < |r| ==> r[i].citizenship in countries
    ensures forall i :: 0 <= i < |rows| && rows[i].citizenship in countries ==> rows[i] in r
    ensures forall x :: multiset(r)[x] == if x.citizenship in countries then multiset(rows)[x] else 0
  {
    Where(rows, (x: Record) => x.citizenship in countries)
  }

  /** The number of rows with country `code` is what the per-country count records. */
  lemma {:induction false} RowsOfCountryCount(rows: seq<Record>, code: string)
    ensures |RowsOfCountry(rows, code)| == SumWhere(rows, CountryKey, code, One)
  {
    if rows != [] {
      RowsOfCountryCount(rows[1..], code);
    }
  }

  /** Summing a key that every row has is summing over every row. */
  lemma {:induction false} SumKeyedAll<K>(rows: seq<Record>, key: Record -> Option<K>, w: Record -> nat)
    requires forall i :: 0 <= i < |rows| ==> key(rows[i]).Some?
    ensures SumKeyed(rows, key, w) == SumOf(rows, w)
  {
    if rows != [] {
      SumKeyedAll(rows[1..], key, w);
    }
  }

  /** Counting the rows a key is present for, when every row has it, counts every row. */
  lemma {:induction false} SumOfOne(rows: seq<Record>)
    ensures SumOf(rows, One) == |rows|
  {
    if rows != [] {
      SumOfOne(rows[1..]);
    }
  }

  // ---------------------------------------------------------------------------
  // Picks over a table

  /** `df['finalWorth'].idxmax()`: the first row of largest worth; None (pandas raises) on an empty table. */
  function Richest(rows: seq<Record>): (r: Option<nat>)
    ensures r.None? <==> rows == []
    ensures r.Some? ==> r.value < |rows|
    ensures r.Some? ==> forall j :: 0 <= j < |rows| ==> rows[j].finalWorth <= rows[r.value].finalWorth
    ensures r.Some? ==> forall j :: 0 <= j < r.value ==> rows[j].finalWorth < rows[r.value].finalWorth
  {
    var r := ArgMax(rows, WorthScore);
    assert forall j :: 0 <= j < |rows| ==> WorthScore(rows[j]) == Some(rows[j].finalWorth);
    r
  }

  /** `df['age'].idxmin()`: the first row of smallest age among rows with an age; None when no row has one. */
  function Youngest(rows: seq<Record>): (r: Option<nat>)
    ensures r.None? <==> forall i :: 0 <= i < |rows| ==> rows[i].age.None?
    ensures r.Some? ==> r.value < |rows| && rows[r.value].age.Some?
    ensures r.Some? ==> forall j :: 0 <= j < |rows| && rows[j].age.Some? ==> rows[j].age.value >= rows[r.value].age.value
    ensures r.Some? ==> forall j :: 0 <= j < r.value && rows[j].age.Some? ==> rows[j].age.value > rows[r.value].age.value
  {
    var r := ArgMin(rows, AgeScore);
    assert forall j :: 0 <= j < |rows| ==> AgeScore(rows[j]) == rows[j].age;
    r
  }

  /** `df['age'].idxmax()`: the first row of largest age among rows with an age; None when no row has one. */
  function Oldest(rows: seq<Record>): (r: Option<nat>)
    ensures r.None? <==> forall i :: 0 <= i < |rows| ==> rows[i].age.None?
    ensures r.Some? ==> r.value < |rows| && rows[r.value].age.Some?
    ensures r.Some? ==> forall j :: 0 <= j < |rows| && rows[j].age.Some? ==> rows[j].age.value <= rows[r.value].age.value
    ensures r.Some? ==> forall j :: 0 <= j < r.value && rows[j].age.Some? ==> rows[j].age.value < rows[r.value].age.value
  {
    var r := ArgMax(rows, AgeScore);
    assert forall j :: 0 <= j < |rows| ==> AgeScore(rows[j]) == rows[j].age;
    r
  }

  /**
   * The group that `groupby(key)[w].sum().idxmax()` picks has the largest sum
   * of all keys present in the rows, and the smallest key among equal sums.
   */
  lemma {:induction false} TopGroupOfRows(rows: seq<Record>, key: Record -> Option<string>, w: Record -> nat)
    requires exists i :: 0 <= i < |rows| && key(rows[i]).Some?
    ensures TopGroup(GroupSum(rows, key, w)).Some?
    ensures var t := TopGroup(GroupSum(rows, key, w)).value.0;
      && (exists i :: 0 <= i < |rows| && key(rows[i]) == Some(t))
      && (forall j :: 0 <= j < |rows| && key(rows[j]).Some? ==>
            SumWhere(rows, key, key(rows[j]).value, w) <= SumWhere(rows, key, t, w))
      && (forall j ::
            (0 <= j < |rows| && key(rows[j]).Some? && SumWhere(rows, key, key(rows[j]).value, w) == SumWhere(rows, key, t, w))
            ==> StrLe(t, key(rows[j]).value))
  {
    var g := GroupSum(rows, key, w);
    var i0 :| 0 <= i0 < |rows| && key(rows[i0]).Some?;
    GroupSumHasKey(rows, key, w, key(rows[i0]).value);
    GroupSumDistinct(rows, key, w);
    var best := TopGroup(g).value;
    var bi :| 0 <= bi < |g| && g[bi] == best;
    GroupSumHasKey(rows, key, w, best.0);
    LookupEntry(g, bi);
    GroupSumLookup(rows, key, w, best.0);
    forall j | 0 <= j < |rows| && key(rows[j]).Some?
      ensures SumWhere(rows, key, key(rows[j]).value, w) <= SumWhere(rows, key, best.0, w)
      ensures SumWhere(rows, key, key(rows[j]).value, w) == SumWhere(rows, key, best.0, w) ==> StrLe(best.0, key(rows[j]).value)
    {
      var k := key(rows[j]).value;
      GroupSumHasKey(rows, key, w, k);
      var e :| 0 <= e < |g| && g[e].0 == k;
      LookupEntry(g, e);
      GroupSumLookup(rows, key, w, k);
    }
  }

  /** `groupby('industries')['finalWorth'].sum().idxmax()`. */
  function TopIndustry(rows: seq<Record>): (r: Option<string>)
    ensures r.None? <==> rows == []
    ensures r.Some? ==> exists i :: 0 <= i < |rows| && rows[i].industry == r.value
    ensures r.Some? ==> forall j :: 0 <= j < |rows| ==> IndustryWorth(rows, rows[j].industry) <= IndustryWorth(rows, r.value)
    ensures r.Some? ==> forall j :: 0 <= j < |rows| && IndustryWorth(rows, rows[j].industry) == IndustryWorth(rows, r.value)
                                    ==> StrLe(r.value, rows[j].industry)
  {
    if rows == [] then None
    else
      assert IndustryKey(rows[0]).Some?;
      TopGroupOfRows(rows, IndustryKey, Worth);
      Some(TopGroup(GroupSum(rows, IndustryKey, Worth)).value.0)
  }

  /** `groupby('source')['finalWorth'].sum().idxmax()` (the "top company"). */
  function TopSource(rows: seq<Record>): (r: Option<string>)
    ensures r.None? <==> rows == []
    ensures r.Some? ==> exists i :: 0 <= i < |rows| && rows[i].source == r.value
    ensures r.Some? ==> forall j :: 0 <= j < |rows| ==> SourceWorth(rows, rows[j].source) <= SourceWorth(rows, r.value)
    ensures r.Some? ==> forall j :: 0 <= j < |rows| && SourceWorth(rows, rows[j].source) == SourceWorth(rows, r.value)
                                    ==> StrLe(r.value, rows[j].source)
  {
    if rows == [] then None
    else
      assert SourceKey(rows[0]).Some?;
      TopGroupOfRows(rows, SourceKey, Worth);
      Some(TopGroup(GroupSum(rows, SourceKey, Worth)).value.0)
  }

  /** The five key statistics shown in the side panel. */
  datatype Stats = Stats(richest: Record, youngest: Record, oldest: Record, topIndustry: string, topCompany: string)

  /**
   * The five picks over a table; None when one of them raises, which happens
   * exactly when no row has an age (an empty table has none).
   */
  function StatsOf(rows: seq<Record>): (s: Option<Stats>)
    ensures s.Some? <==> exists i :: 0 <= i < |rows| && rows[i].age.Some?
    ensures s.Some? ==> s.value.richest in rows
    ensures s.Some? ==> forall j :: 0 <= j < |rows| ==> rows[j].finalWorth <= s.value.richest.finalWorth
    ensures s.Some? ==> s.value.youngest in rows && s.value.youngest.age.Some?
    ensures s.Some? ==> forall j :: 0 <= j < |rows| && rows[j].age.Some? ==> s.value.youngest.age.value <= rows[j].age.value
    ensures s.Some? ==> s.value.oldest in rows && s.value.oldest.age.Some?
    ensures s.Some? ==> forall j :: 0 <= j < |rows| && rows[j].age.Some? ==> rows[j].age.value <= s.value.oldest.age.value
    ensures s.Some? ==> Some(s.value.topIndustry) == TopIndustry(rows) && Some(s.value.topCompany) == TopSource(rows)
    ensures s.Some? ==> Richest(rows).Some? && s.value.richest == rows[Richest(rows).value]
    ensures s.Some? ==> Youngest(rows).Some? && s.value.youngest == rows[Youngest(rows).value]
    ensures s.Some? ==> Oldest(rows).Some? && s.value.oldest == rows[Oldest(rows).value]
  {
    var rich, young, elder := Richest(rows), Youngest(rows), Oldest(rows);
    var ind, src := TopIndustry(rows), TopSource(rows);
    if rich.Some? && young.Some? && elder.Some? && ind.Some? && src.Some? then
      Some(Stats(rows[rich.value], rows[young.value], rows[elder.value], ind.value, src.value))
    else
      None
  }
}
