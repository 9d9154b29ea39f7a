/** The consolidated plotting notebook's wrangling: names are cleaned of a
    known zone prefix, mapped to a technology type by the first category key
    that is a prefix of them, and grouped by `Tech_Type`; plus the capacity
    difference and the cost lookup. */
module ConsolidatedPlots {

  import opened Outcomes
  import opened Search
  import opened Grouping
  import opened Tables

  /** `zones`, in list order. */
  const Zones: seq<string> := [
    "MIS_INKY", "PJM_WMAC", "PJM_SMAC", "PJM_West", "PJM_AP", "PJM_COMD",
    "PJM_ATSI", "PJM_Dom", "PJM_PENE", "S_C_KY", "PJM_EMAC", "MIS_LMI"
  ]

  /** `generation_resource_categories`, in insertion order. */
  const GenerationResourceCategories: seq<(string, string)> := [
    ("conventional_hydroelectric", "Hydro"),
    ("conventional_steam_coal", "Coal"),
    ("natural_gas_fired_combined_cycle", "Existing_natural_gas"),
    ("natural_gas_fired_combustion_turbine", "Existing_natural_gas"),
    ("naturalgas_ccavgcf_moderate", "New_natural_gas"),
    ("naturalgas_ctavgcf_moderate", "New_natural_gas"),
    ("naturalgas_ccccsavgcf_conservative", "Natural_gas_with_CCS"),
    ("solar_photovoltaic", "Solar"),
    ("onshore_wind_turbine", "Wind"),
    ("small_hydroelectric", "Hydro"),
    ("hydroelectric_pumped_storage", "Hydro"),
    ("nuclear", "Nuclear"),
    ("landbasedwind", "Wind"),
    ("battery", "Battery"),
    ("utilitypv", "Solar"),
    ("offshorewind", "Wind"),
    ("CCGT-H2", "H2"),
    ("OCGT-H2", "H2")
  ]

  /** `H2_resource_categories`, in insertion order. */
  const H2ResourceCategories: seq<(string, string)> := [
    ("Electrolyzer", "Electrolyzer"),
    ("Large_SMR_wCCS_96pct", "Large_SMR_wCCS_96pct"),
    ("Large_SMR", "Large_SMR"),
    ("ATR_wCCS_94pct", "ATR_wCCS_94pct"),
    ("Salt_cavern_storage", "Salt_cavern_storage")
  ]

  /** Python's `s[k:]` for `k >= 0`: empty once `k` passes the end. */
  function After(s: string, k: nat): (r: string)
    ensures k <= |s| ==> r == s[k..]
    ensures k > |s| ==> r == ""
  {
    if k <= |s| then s[k..] else ""
  }

  /** The zone loop: the name with the first zone (in list order) that
      prefixes it removed together with the separator after it, or the name
      unchanged when no zone prefixes it. */
  function StripZone(zones: seq<string>, name: string): string
  {
    match FirstWhere(zones, (z: string) => z <= name)
    case None => name
    case Some(j) => After(name, |zones[j]| + 1)
  }

  /** The category loop: the value of the first key (in insertion order) that
      prefixes `s`, or `s` itself when no key does. */
  function MapPrefix(categories: seq<(string, string)>, s: string): string
  {
    match FirstWhere(categories, (p: (string, string)) => p.0 <= s)
    case None => s
    case Some(k) => categories[k].1
  }

  /** A name no zone prefixes is kept as it is. */
  lemma StripZoneNoZone(zones: seq<string>, name: string)
    requires forall j :: 0 <= j < |zones| ==> !(zones[j] <= name)
    ensures StripZone(zones, name) == name
  {
    assert FirstWhere(zones, (z: string) => z <= name).None?;
  }

  /** The first zone (in list order) that prefixes the name is removed with
      the one separator character after it; later zones are never tried. */
  lemma StripZoneFirst(zones: seq<string>, name: string, j: nat)
    requires j < |zones| && zones[j] <= name
    requires forall m :: 0 <= m < j ==> !(zones[m] <= name)
    ensures StripZone(zones, name) == After(name, |zones[j]| + 1)
  {
    FirstWhereUnique(zones, (z: string) => z <= name, j);
  }

  /** A string no key prefixes maps to itself. */
  lemma MapPrefixNoKey(categories: seq<(string, string)>, s: string)
    requires forall k :: 0 <= k < |categories| ==> !(categories[k].0 <= s)
    ensures MapPrefix(categories, s) == s
  {
    assert FirstWhere(categories, (p: (string, string)) => p.0 <= s).None?;
  }

  /** The first key (in insertion order) that prefixes the string decides
      its value, whatever later keys also match. */
  lemma MapPrefixFirst(categories: seq<(string, string)>, s: string, k: nat)
    requires k < |categories| && categories[k].0 <= s
    requires forall m :: 0 <= m < k ==> !(categories[m].0 <= s)
    ensures MapPrefix(categories, s) == categories[k].1
  {
    FirstWhereUnique(categories, (p: (string, string)) => p.0 <= s, k);
  }

  /** The technology type of one name. An empty category table leaves
      `result_string` unbound, and an empty zone list `cleaned_string`
      (Python raises `UnboundLocalError` on the first row). */
  function TechTypeOf(zones: seq<string>, categories: seq<(string, string)>, name: string): (r: Result<string>)
    ensures r.Err? <==> zones == [] || categories == []
    ensures categories == [] ==> r == Err(UnboundName("result_string"))
    ensures categories != [] && zones == [] ==> r == Err(UnboundName("cleaned_string"))
  {
    if categories == [] then Err(UnboundName("result_string"))
    else if zones == [] then Err(UnboundName("cleaned_string"))
    else Ok(MapPrefix(categories, StripZone(zones, name)))
  }

  function TechTyper(zones: seq<string>, categories: seq<(string, string)>): string -> Result<string>
  {
    name => TechTypeOf(zones, categories, name)
  }

  /** A row of a results table as the grouping sees it: its `Resource` and
      its numeric cells. */
  type ResourceRow = (string, Metrics)

  function Names(rows: seq<ResourceRow>): (r: seq<string>)
    ensures |r| == |rows| && forall i :: 0 <= i < |rows| ==> r[i] == rows[i].0
  {
    seq(|rows|, i requires 0 <= i < |rows| => rows[i].0)
  }

  /** The rows keyed by their `Tech_Type`. */
  function Tagged(rows: seq<ResourceRow>, types: seq<string>): (r: seq<(string, Metrics)>)
    requires |types| == |rows|
    ensures |r| == |rows| && forall i :: 0 <= i < |rows| ==> r[i] == (types[i], rows[i].1)
  {
    seq(|rows|, i requires 0 <= i < |rows| => (types[i], rows[i].1))
  }

  /** `identify_tech_type(df, resources)`: the `Tech_Type` of every row,
      then `groupby('Tech_Type').sum()` over the numeric columns. */
  function IdentifyByPrefix(rows: seq<ResourceRow>, cols: set<string>, zones: seq<string>, categories: seq<(string, string)>)
    : (r: Result<seq<Group<string>>>)
    requires RowsWidth(rows, cols)
    ensures r.Err? <==> |rows| > 0 && (zones == [] || categories == [])
    ensures r.Ok? ==> GroupsWidth(r.value, cols)
  {
    var types :- MapResults(TechTyper(zones, categories), Names(rows));
    Ok(GroupSum(Tagged(rows, types), cols))
  }

  /** The frame `identify_tech_type` receives: its rows, and the `Tech_Type`
      column it assigns. */
  class TechFrame {
    var columns: set<string>
    var rows: seq<ResourceRow>
    var techTypes: Option<seq<string>>

    constructor (cols: set<string>, rs: seq<ResourceRow>)
      ensures columns == cols && rows == rs && techTypes == None
    {
      columns := cols;
      rows := rs;
      techTypes := None;
    }

    /** The loop as written: for each name, the zone loop sets
        `cleaned_string` and the category loop `result_string`, and the
        result is appended; both variables live on from row to row. The list
        is then assigned as the `Tech_Type` column and the frame grouped. */
    method IdentifyTechType(zones: seq<string>, categories: seq<(string, string)>) returns (r: Result<seq<Group<string>>>)
      requires RowsWidth(rows, columns)
      modifies this
      ensures r == IdentifyByPrefix(old(rows), old(columns), zones, categories)
      ensures rows == old(rows) && columns == old(columns)
      ensures techTypes == (if r.Ok? then Some(MapResults(TechTyper(zones, categories), Names(rows)).value) else old(techTypes))
    {
      var rs := rows;
      var types: seq<string> := [];
      var cleaned: Option<string> := None;
      var result: Option<string> := None;
      var i := 0;
      while i < |rs|
        invariant rows == rs && columns == old(columns) && techTypes == old(techTypes)
        invariant 0 <= i <= |rs| && |types| == i
        invariant forall k :: 0 <= k < i ==> types[k] == MapPrefix(categories, StripZone(zones, rs[k].0))
        invariant i > 0 ==> zones != [] && categories != []
        invariant i == 0 ==> cleaned.None? && result.None?
      {
        cleaned := ZoneLoop(zones, rs[i].0, cleaned);
        var step := CategoryLoop(categories, cleaned, result);
        if step.Err? || step.value.None? {
          IdentifyFails(rs, columns, zones, categories);
          return Err(if categories == [] then UnboundName("result_string") else UnboundName("cleaned_string"));
        }
        result := step.value;
        types := types + [result.value];
        i := i + 1;
      }
      if i > 0 {
        TypesOfAllRows(zones, categories, rs, types);
      }
      techTypes := Some(types);
      r := Ok(GroupSum(Tagged(rs, types), columns));
    }
  }

  /** With an empty zone list or category table the first row already fails,
      naming the variable left unbound: `result_string` when there are no
      categories, else `cleaned_string`. */
  lemma IdentifyFails(rows: seq<ResourceRow>, cols: set<string>, zones: seq<string>, categories: seq<(string, string)>)
    requires RowsWidth(rows, cols) && |rows| > 0 && (zones == [] || categories == [])
    ensures IdentifyByPrefix(rows, cols, zones, categories) ==
              Err(if categories == [] then UnboundName("result_string") else UnboundName("cleaned_string"))
  {
    var f := TechTyper(zones, categories);
    var m := MapResults(f, Names(rows));
    assert f(Names(rows)[0]).Err?;
    var i :| 0 <= i < |rows| && f(Names(rows)[i]) == Err(m.error);
  }

  /** Types found row by row are exactly the list `MapResults` yields. */
  lemma TypesOfAllRows(zones: seq<string>, categories: seq<(string, string)>, rows: seq<ResourceRow>, types: seq<string>)
    requires zones != [] && categories != [] && |types| == |rows|
    requires forall k :: 0 <= k < |rows| ==> types[k] == MapPrefix(categories, StripZone(zones, rows[k].0))
    ensures MapResults(TechTyper(zones, categories), Names(rows)) == Ok(types)
  {
    var f := TechTyper(zones, categories);
    var names := Names(rows);
    forall k | 0 <= k < |names| ensures f(names[k]) == Ok(types[k]) {
      assert names[k] == rows[k].0;
    }
    var m := MapResults(f, names);
    assert m.value == types;
  }

  /** The zone loop of one row: each zone that does not prefix the name sets
      `cleaned_string` to the name, the first that does sets it to the
      stripped name and breaks. With no zones the variable keeps its value. */
  method ZoneLoop(zones: seq<string>, name: string, cleaned: Option<string>) returns (r: Option<string>)
    ensures zones != [] ==> r == Some(StripZone(zones, name))
    ensures zones == [] ==> r == cleaned
  {
    r := cleaned;
    var j := 0;
    while j < |zones|
      invariant 0 <= j <= |zones|
      invariant forall m :: 0 <= m < j ==> !(zones[m] <= name)
      invariant j > 0 ==> r == Some(name)
      invariant j == 0 ==> r == cleaned
    {
      if zones[j] <= name {
        r := Some(After(name, |zones[j]| + 1));
        StripZoneFirst(zones, name, j);
        return;
      }
      r := Some(name);
      j := j + 1;
    }
    if zones != [] {
      StripZoneNoZone(zones, name);
    }
  }

  /** The category loop of one row: reading an unbound `cleaned_string`
      fails; each key that does not prefix it sets `result_string` to it,
      the first that does sets it to the key's value and breaks. With no
      keys the variable keeps its value. */
  method CategoryLoop(categories: seq<(string, string)>, cleaned: Option<string>, result: Option<string>)
    returns (r: Result<Option<string>>)
    ensures categories != [] && cleaned.None? ==> r == Err(UnboundName("cleaned_string"))
    ensures categories != [] && cleaned.Some? ==> r == Ok(Some(MapPrefix(categories, cleaned.value)))
    ensures categories == [] ==> r == Ok(result)
  {
    var current := result;
    var k := 0;
    while k < |categories|
      invariant 0 <= k <= |categories|
      invariant k > 0 ==> cleaned.Some? && current == Some(cleaned.value)
      invariant forall m :: 0 <= m < k ==> cleaned.Some? && !(categories[m].0 <= cleaned.value)
      invariant k == 0 ==> current == result
    {
      if cleaned.None? {
        return Err(UnboundName("cleaned_string"));
      }
      if categories[k].0 <= cleaned.value {
        MapPrefixFirst(categories, cleaned.value, k);
        return Ok(Some(categories[k].1));
      }
      current := Some(cleaned.value);
      k := k + 1;
    }
    if categories != [] {
      MapPrefixNoKey(categories, cleaned.value);
    }
    return Ok(current);
  }

  // ----- what the grouping keeps -----

  /** The predicate selecting every technology type. */
  function AnyType(): string -> bool
  {
    _ => true
  }

  /** Labelling rows with their types does not change a column's total over
      all of them. */
  lemma {:induction false} TaggedKeepsTotal(rows: seq<ResourceRow>, types: seq<string>, c: string)
    requires |types| == |rows| && forall i :: 0 <= i < |rows| ==> c in rows[i].1
    ensures SumRows(Tagged(rows, types), AnyType(), c) == SumRows(rows, AnyType(), c)
  {
    if rows != [] {
      var n := |rows|;
      TaggedKeepsTotal(rows[..n - 1], types[..n - 1], c);
      assert Tagged(rows, types)[..n - 1] == Tagged(rows[..n - 1], types[..n - 1]);
    }
  }

  /** The `Tech_Type` list has one entry per row, in row order: the row's
      name with its zone stripped, mapped by the categories. */
  lemma TechTypesPerRow(rows: seq<ResourceRow>, zones: seq<string>, categories: seq<(string, string)>)
    requires zones != [] && categories != []
    ensures MapResults(TechTyper(zones, categories), Names(rows)).Ok?
    ensures |MapResults(TechTyper(zones, categories), Names(rows)).value| == |rows|
    ensures forall i :: 0 <= i < |rows| ==>
              MapResults(TechTyper(zones, categories), Names(rows)).value[i] == MapPrefix(categories, StripZone(zones, rows[i].0))
  {
    var f := TechTyper(zones, categories);
    forall i | 0 <= i < |rows| ensures f(Names(rows)[i]) == Ok(MapPrefix(categories, StripZone(zones, rows[i].0))) {
      assert Names(rows)[i] == rows[i].0;
    }
  }

  /** With a zone list and a category table the grouping succeeds, yields
      exactly one group per distinct technology type of the rows, and keeps
      the total of every numeric column. */
  lemma IdentifyByPrefixGroups(rows: seq<ResourceRow>, cols: set<string>, zones: seq<string>, categories: seq<(string, string)>, c: string)
    requires RowsWidth(rows, cols) && zones != [] && categories != []
    ensures IdentifyByPrefix(rows, cols, zones, categories).Ok?
    ensures UniqueKeys(IdentifyByPrefix(rows, cols, zones, categories).value)
    ensures forall t :: t in Keys(IdentifyByPrefix(rows, cols, zones, categories).value) <==>
              exists i :: 0 <= i < |rows| && t == MapPrefix(categories, StripZone(zones, rows[i].0))
    ensures c in cols ==> SumGroups(IdentifyByPrefix(rows, cols, zones, categories).value, AnyType(), c) == SumRows(rows, AnyType(), c)
  {
    TechTypesPerRow(rows, zones, categories);
    var types := MapResults(TechTyper(zones, categories), Names(rows)).value;
    var tagged := Tagged(rows, types);
    assert IdentifyByPrefix(rows, cols, zones, categories) == Ok(GroupSum(tagged, cols));
    forall t ensures t in RowKeys(tagged) <==> exists i :: 0 <= i < |rows| && t == MapPrefix(categories, StripZone(zones, rows[i].0)) {
      if t in RowKeys(tagged) {
        var i :| 0 <= i < |tagged| && tagged[i].0 == t;
        assert t == MapPrefix(categories, StripZone(zones, rows[i].0));
      }
      if exists i :: 0 <= i < |rows| && t == MapPrefix(categories, StripZone(zones, rows[i].0)) {
        var i :| 0 <= i < |rows| && t == MapPrefix(categories, StripZone(zones, rows[i].0));
        assert tagged[i].0 == t;
      }
    }
    if c in cols {
      GroupSumConserves(tagged, cols, AnyType(), c);
      TaggedKeepsTotal(rows, types, c);
    }
  }

  /** Total of column `c` over the rows whose technology type is `t`. */
  function TypeTotal(rows: seq<ResourceRow>, zones: seq<string>, categories: seq<(string, string)>, t: string, c: string): real
    requires forall i :: 0 <= i < |rows| ==> c in rows[i].1
  {
    if rows == [] then 0.0
    else
      var last := rows[|rows| - 1];
      TypeTotal(rows[..|rows| - 1], zones, categories, t, c) +
        (if MapPrefix(categories, StripZone(zones, last.0)) == t then last.1[c] else 0.0)
  }

  lemma {:induction false} TaggedTypeTotal(rows: seq<ResourceRow>, types: seq<string>, zones: seq<string>, categories: seq<(string, string)>, t: string, c: string)
    requires |types| == |rows| && forall i :: 0 <= i < |rows| ==> c in rows[i].1
    requires forall i :: 0 <= i < |rows| ==> types[i] == MapPrefix(categories, StripZone(zones, rows[i].0))
    ensures SumRows(Tagged(rows, types), KeyIs(t), c) == TypeTotal(rows, zones, categories, t, c)
  {
    if rows != [] {
      var n := |rows|;
      TaggedTypeTotal(rows[..n - 1], types[..n - 1], zones, categories, t, c);
      assert Tagged(rows, types)[..n - 1] == Tagged(rows[..n - 1], types[..n - 1]);
    }
  }

  /** Each group's value in a column is the sum of that column over exactly
      the rows whose technology type is the group's. */
  lemma IdentifyByPrefixGroupValue(rows: seq<ResourceRow>, cols: set<string>, zones: seq<string>, categories: seq<(string, string)>, i: nat, c: string)
    requires RowsWidth(rows, cols) && c in cols && zones != [] && categories != []
    requires i < |IdentifyByPrefix(rows, cols, zones, categories).value|
    ensures IdentifyByPrefix(rows, cols, zones, categories).value[i].sums[c] ==
              TypeTotal(rows, zones, categories, IdentifyByPrefix(rows, cols, zones, categories).value[i].key, c)
  {
    TechTypesPerRow(rows, zones, categories);
    var types := MapResults(TechTyper(zones, categories), Names(rows)).value;
    var tagged := Tagged(rows, types);
    assert IdentifyByPrefix(rows, cols, zones, categories) == Ok(GroupSum(tagged, cols));
    GroupValue(tagged, cols, i, c);
    TaggedTypeTotal(rows, types, zones, categories, GroupSum(tagged, cols)[i].key, c);
  }

  // ----- the tables as declared -----

  /** A key that differs from `s` at some position within both is not a
      prefix of `s`. */
  lemma DiffersAt(key: string, s: string, k: nat)
    requires k < |key| && k < |s| && key[k] != s[k]
    ensures !(key <= s)
  {
  }

  /** No zone starts with 'C'. */
  lemma NoZoneStartsWithC(name: string)
    requires |name| > 0 && name[0] == 'C'
    ensures forall j :: 0 <= j < |Zones| ==> !(Zones[j] <= name)
  {
    forall j | 0 <= j < 12 ensures !(Zones[j] <= name) {
      DiffersAt(Zones[j], name, 0);
    }
  }

  /** No key before the hydrogen turbines starts with 'C'. */
  lemma NoEarlierKeyStartsWithC(name: string)
    requires |name| > 0 && name[0] == 'C'
    ensures forall m :: 0 <= m < 16 ==> !(GenerationResourceCategories[m].0 <= name)
  {
    forall m | 0 <= m < 16 ensures !(GenerationResourceCategories[m].0 <= name) {
      DiffersAt(GenerationResourceCategories[m].0, name, 0);
    }
  }

  /** A PJM West carbon-capture plant is cleaned to its technology name and
      classed as natural gas with carbon capture. */
  lemma NaturalGasWithCcsExample(name: string)
    requires name == "PJM_West_naturalgas_ccccsavgcf_conservative"
    ensures TechTypeOf(Zones, GenerationResourceCategories, name) == Ok("Natural_gas_with_CCS")
  {
    PjmWestStripped(name);
    CarbonCaptureKey(name[9..]);
  }

  /** The first three zones differ from the name at positions 0, 5 and 4;
      the fourth, "PJM_West", prefixes it. */
  lemma PjmWestStripped(name: string)
    requires name == "PJM_West_naturalgas_ccccsavgcf_conservative"
    ensures StripZone(Zones, name) == name[9..]
  {
    forall j | 0 <= j < 3 ensures !(Zones[j] <= name) {
      if j == 0 {
        DiffersAt(Zones[0], name, 0);
      } else if j == 1 {
        DiffersAt(Zones[1], name, 5);
      } else {
        DiffersAt(Zones[2], name, 4);
      }
    }
    assert Zones[3] <= name by {
      forall k | 0 <= k < 8 ensures Zones[3][k] == name[k] {
      }
    }
    StripZoneFirst(Zones, name, 3);
  }

  /** Each of the first six keys differs from the cleaned name at the
      position given; the seventh is the name itself. */
  lemma CarbonCaptureKey(cleaned: string)
    requires cleaned == "naturalgas_ccccsavgcf_conservative"
    ensures MapPrefix(GenerationResourceCategories, cleaned) == "Natural_gas_with_CCS"
  {
    var cats := GenerationResourceCategories;
    forall m | 0 <= m < 6 ensures !(cats[m].0 <= cleaned) {
      if m == 0 {
        DiffersAt(cats[0].0, cleaned, 0);
      } else if m == 1 {
        DiffersAt(cats[1].0, cleaned, 0);
      } else if m == 2 {
        DiffersAt(cats[2].0, cleaned, 7);
      } else if m == 3 {
        DiffersAt(cats[3].0, cleaned, 7);
      } else if m == 4 {
        DiffersAt(cats[4].0, cleaned, 13);
      } else {
        DiffersAt(cats[5].0, cleaned, 12);
      }
    }
    assert cats[6].0 == cleaned;
    MapPrefixFirst(cats, cleaned, 6);
  }

  /** A name with no zone prefix is mapped as it is: the hydrogen combined
      cycle plant is classed as H2. */
  lemma HydrogenTurbineExample(name: string)
    requires name == "CCGT-H2"
    ensures TechTypeOf(Zones, GenerationResourceCategories, name) == Ok("H2")
  {
    NoZoneStartsWithC(name);
    StripZoneNoZone(Zones, name);
    HydrogenTurbineKey(name);
  }

  lemma HydrogenTurbineKey(name: string)
    requires name == "CCGT-H2"
    ensures MapPrefix(GenerationResourceCategories, name) == "H2"
  {
    NoEarlierKeyStartsWithC(name);
    assert GenerationResourceCategories[16].0 == name;
    MapPrefixFirst(GenerationResourceCategories, name, 16);
  }

  /** `Large_SMR_wCCS_96pct` comes before `Large_SMR`, so names of the
      carbon-capture variant keep their own type; other `Large_SMR` names
      are classed `Large_SMR`. */
  lemma LargeSmrOrder(s: string)
    requires H2ResourceCategories[2].0 <= s
    ensures H2ResourceCategories[1].0 <= s ==> MapPrefix(H2ResourceCategories, s) == "Large_SMR_wCCS_96pct"
    ensures !(H2ResourceCategories[1].0 <= s) ==> MapPrefix(H2ResourceCategories, s) == "Large_SMR"
  {
    var cats := H2ResourceCategories;
    assert !(cats[0].0 <= s) by {
      assert cats[0].0[0] != cats[2].0[0] && s[0] == cats[2].0[0];
    }
    if cats[1].0 <= s {
      MapPrefixFirst(cats, s, 1);
    } else {
      MapPrefixFirst(cats, s, 2);
    }
  }

  // ----- the analyses -----

  /** `capacity_w_H2G2p_analysis` and `h2_capacity_analysis` after reading
      their files: they differ only in the file and in the default category
      table (`GenerationResourceCategories`, `H2ResourceCategories`). */
  function CapacityAnalysis(rows: seq<ResourceRow>, cols: set<string>, categories: seq<(string, string)>): Result<seq<Group<string>>>
    requires RowsWidth(rows, cols)
  {
    IdentifyByPrefix(rows, cols, Zones, categories)
  }

  /** With a non-empty category table (both declared ones are) the capacity
      analyses succeed and keep every column's total. */
  lemma CapacityAnalysisKeepsTotals(rows: seq<ResourceRow>, cols: set<string>, categories: seq<(string, string)>, c: string)
    requires RowsWidth(rows, cols) && categories != [] && c in cols
    ensures CapacityAnalysis(rows, cols, categories).Ok?
    ensures SumGroups(CapacityAnalysis(rows, cols, categories).value, AnyType(), c) == SumRows(rows, AnyType(), c)
  {
    IdentifyByPrefixGroups(rows, cols, Zones, categories, c);
  }

  /** All but the last entry (`df.iloc[:-1]`). */
  function DropLast<T>(xs: seq<T>): (r: seq<T>)
    ensures |r| == if xs == [] then 0 else |xs| - 1
    ensures r <= xs
  {
    if xs == [] then [] else xs[..|xs| - 1]
  }

  /** The transposed power table's `Resource` and `AnnualSum` columns as rows. */
  function PowerRows(pairs: seq<(string, real)>): (r: seq<ResourceRow>)
    ensures |r| == |pairs|
    ensures forall i :: 0 <= i < |pairs| ==> r[i] == (pairs[i].0, map["AnnualSum" := pairs[i].1])
  {
    seq(|pairs|, i requires 0 <= i < |pairs| => (pairs[i].0, map["AnnualSum" := pairs[i].1]))
  }

  /** `power_w_H2G2p_analysis` after reading the file: transpose, keep
      `Resource` and `AnnualSum`, drop the last row (the `Total` column of
      the file), classify and group. */
  function PowerAnalysis(power: PowerTable, categories: seq<(string, string)>): (r: Result<seq<Group<string>>>)
    requires PowerWellFormed(power)
  {
    var pairs :- AnnualSums(power);
    var rows := PowerRows(DropLast(pairs));
    assert RowsWidth(rows, {"AnnualSum"});
    IdentifyByPrefix(rows, {"AnnualSum"}, Zones, categories)
  }

  /** Sum of a sequence of numbers. */
  function Total(xs: seq<real>): real
  {
    if xs == [] then 0.0 else Total(xs[..|xs| - 1]) + xs[|xs| - 1]
  }

  lemma {:induction false} PowerRowsTotal(pairs: seq<(string, real)>, values: seq<real>)
    requires |values| == |pairs| && forall i :: 0 <= i < |pairs| ==> pairs[i].1 == values[i]
    ensures SumRows(PowerRows(pairs), AnyType(), "AnnualSum") == Total(values)
  {
    if pairs != [] {
      var n := |pairs|;
      PowerRowsTotal(pairs[..n - 1], values[..n - 1]);
      assert PowerRows(pairs)[..n - 1] == PowerRows(pairs[..n - 1]);
    }
  }

  /** The power analysis fails exactly when the file has no `AnnualSum`
      row; otherwise the grouped annual sums add up to that row's values
      over every resource column but the last. */
  lemma PowerAnalysisTotal(power: PowerTable, categories: seq<(string, string)>)
    requires PowerWellFormed(power) && categories != []
    ensures PowerAnalysis(power, categories).Err? <==> forall i :: 0 <= i < |power.rows| ==> power.rows[i].series != "AnnualSum"
    ensures PowerAnalysis(power, categories).Err? ==> PowerAnalysis(power, categories).error == MissingColumn("AnnualSum")
    ensures PowerAnalysis(power, categories).Ok? ==>
              exists i :: 0 <= i < |power.rows| && power.rows[i].series == "AnnualSum" &&
                SumGroups(PowerAnalysis(power, categories).value, AnyType(), "AnnualSum") == Total(DropLast(power.rows[i].values))
  {
    if AnnualSums(power).Ok? {
      var pairs := AnnualSums(power).value;
      assert PowerAnalysis(power, categories) == IdentifyByPrefix(PowerRows(DropLast(pairs)), {"AnnualSum"}, Zones, categories);
      var i :| 0 <= i < |power.rows| && power.rows[i].series == "AnnualSum" &&
               (forall k :: 0 <= k < i ==> power.rows[k].series != "AnnualSum") &&
               (forall j :: 0 <= j < |power.resources| ==> pairs[j] == (power.resources[j], power.rows[i].values[j]));
      PowerGroupsTotal(pairs, power.rows[i].values, Zones, categories);
    }
  }

  /** Grouping the annual sums of all but the last resource keeps their total. */
  lemma PowerGroupsTotal(pairs: seq<(string, real)>, values: seq<real>, zones: seq<string>, categories: seq<(string, string)>)
    requires zones != [] && categories != []
    requires |values| == |pairs| && forall j :: 0 <= j < |pairs| ==> pairs[j].1 == values[j]
    ensures IdentifyByPrefix(PowerRows(DropLast(pairs)), {"AnnualSum"}, zones, categories).Ok?
    ensures SumGroups(IdentifyByPrefix(PowerRows(DropLast(pairs)), {"AnnualSum"}, zones, categories).value, AnyType(), "AnnualSum") ==
              Total(DropLast(values))
  {
    var rows := PowerRows(DropLast(pairs));
    IdentifyByPrefixGroups(rows, {"AnnualSum"}, zones, categories, "AnnualSum");
    PowerRowsTotal(DropLast(pairs), DropLast(values));
  }

  // ----- the capacity difference -----

  /** `df[['Tech_Type', 'StartCap', 'EndCap']]` on the grouped frame. */
  function SelectCaps(gs: seq<Group<string>>): (r: seq<Group<string>>)
    requires forall i :: 0 <= i < |gs| ==> "StartCap" in gs[i].sums && "EndCap" in gs[i].sums
    ensures |r| == |gs|
    ensures forall i :: 0 <= i < |gs| ==> r[i].key == gs[i].key && r[i].sums.Keys == {"StartCap", "EndCap"}
    ensures forall i :: 0 <= i < |gs| ==> r[i].sums["StartCap"] == gs[i].sums["StartCap"] && r[i].sums["EndCap"] == gs[i].sums["EndCap"]
  {
    seq(|gs|, i requires 0 <= i < |gs| => Group(gs[i].key, Restrict(gs[i].sums, {"StartCap", "EndCap"})))
  }

  /** Every group with the `Cap_difference` column added. */
  function WithCapDifference(gs: seq<Group<string>>): (r: seq<Group<string>>)
    requires forall i :: 0 <= i < |gs| ==> "StartCap" in gs[i].sums && "EndCap" in gs[i].sums
    ensures |r| == |gs|
    ensures forall i :: 0 <= i < |gs| ==> r[i].key == gs[i].key && r[i].sums.Keys == gs[i].sums.Keys + {"Cap_difference"}
    ensures forall i :: 0 <= i < |gs| ==> r[i].sums["Cap_difference"] == gs[i].sums["EndCap"] - gs[i].sums["StartCap"]
    ensures forall i, c :: 0 <= i < |gs| && c in gs[i].sums && c != "Cap_difference" ==> r[i].sums[c] == gs[i].sums[c]
  {
    seq(|gs|, i requires 0 <= i < |gs| =>
      Group(gs[i].key, gs[i].sums["Cap_difference" := gs[i].sums["EndCap"] - gs[i].sums["StartCap"]]))
  }

  /** `generation_difference_analysis` after reading the file: classify and
      group, select the two capacity columns (a missing one raises
      `KeyError`, `StartCap` checked first), add their difference. */
  function GenerationDifference(rows: seq<ResourceRow>, cols: set<string>, zones: seq<string>, categories: seq<(string, string)>)
    : Result<seq<Group<string>>>
    requires RowsWidth(rows, cols)
  {
    var gs :- IdentifyByPrefix(rows, cols, zones, categories);
    if "StartCap" !in cols then Err(MissingColumn("StartCap"))
    else if "EndCap" !in cols then Err(MissingColumn("EndCap"))
    else Ok(WithCapDifference(SelectCaps(gs)))
  }

  /** The analysis fails when classification does, then when a capacity
      column is missing; otherwise every technology type's row holds
      `StartCap`, `EndCap` and `Cap_difference == EndCap - StartCap`, one row
      per group. */
  lemma GenerationDifferenceValues(rows: seq<ResourceRow>, cols: set<string>, zones: seq<string>, categories: seq<(string, string)>)
    requires RowsWidth(rows, cols)
    ensures GenerationDifference(rows, cols, zones, categories).Ok? <==>
              (|rows| == 0 || (zones != [] && categories != [])) && "StartCap" in cols && "EndCap" in cols
    ensures IdentifyByPrefix(rows, cols, zones, categories).Ok? && "StartCap" !in cols ==>
              GenerationDifference(rows, cols, zones, categories) == Err(MissingColumn("StartCap"))
    ensures GenerationDifference(rows, cols, zones, categories).Ok? ==>
              |GenerationDifference(rows, cols, zones, categories).value| == |IdentifyByPrefix(rows, cols, zones, categories).value|
    ensures GenerationDifference(rows, cols, zones, categories).Ok? ==>
              forall i :: 0 <= i < |GenerationDifference(rows, cols, zones, categories).value| ==>
                GenerationDifference(rows, cols, zones, categories).value[i].sums.Keys == {"StartCap", "EndCap", "Cap_difference"} &&
                GenerationDifference(rows, cols, zones, categories).value[i].sums["Cap_difference"] ==
                  GenerationDifference(rows, cols, zones, categories).value[i].sums["EndCap"] -
                  GenerationDifference(rows, cols, zones, categories).value[i].sums["StartCap"]
  {
    if GenerationDifference(rows, cols, zones, categories).Ok? {
      var gs := IdentifyByPrefix(rows, cols, zones, categories).value;
      var r := WithCapDifference(SelectCaps(gs));
      assert GenerationDifference(rows, cols, zones, categories).value == r;
      forall i | 0 <= i < |r| ensures r[i].sums.Keys == {"StartCap", "EndCap", "Cap_difference"} {
        assert SelectCaps(gs)[i].sums.Keys == {"StartCap", "EndCap"};
      }
    }
  }

  /** The grouped frame `generation_difference_analysis` adds its column to. */
  class CapacityGroups {
    var columns: set<string>
    var groups: seq<Group<string>>

    constructor (cols: set<string>, gs: seq<Group<string>>)
      ensures columns == cols && groups == gs
    {
      columns := cols;
      groups := gs;
    }

    /** `df['Cap_difference'] = df['EndCap'] - df['StartCap']`. */
    method AddCapDifference()
      requires "StartCap" in columns && "EndCap" in columns && GroupsWidth(groups, columns)
      modifies this
      ensures columns == old(columns) + {"Cap_difference"}
      ensures groups == WithCapDifference(old(groups))
      ensures GroupsWidth(groups, columns)
    {
      groups := WithCapDifference(groups);
      columns := columns + {"Cap_difference"};
    }
  }

  /** `generation_difference_analysis` on a frame: the `Tech_Type` column is
      assigned to the frame, the grouped selection gets its new column. */
  method GenerationDifferenceAnalysis(df: TechFrame, zones: seq<string>, categories: seq<(string, string)>)
    returns (r: Result<seq<Group<string>>>)
    requires RowsWidth(df.rows, df.columns)
    modifies df
    ensures r == GenerationDifference(old(df.rows), old(df.columns), zones, categories)
    ensures df.rows == old(df.rows) && df.columns == old(df.columns)
    ensures df.techTypes == (if IdentifyByPrefix(old(df.rows), old(df.columns), zones, categories).Ok?
                             then Some(MapResults(TechTyper(zones, categories), Names(old(df.rows))).value)
                             else old(df.techTypes))
  {
    var grouped := df.IdentifyTechType(zones, categories);
    if grouped.Err? {
      return Err(grouped.error);
    }
    if "StartCap" !in df.columns {
      return Err(MissingColumn("StartCap"));
    }
    if "EndCap" !in df.columns {
      return Err(MissingColumn("EndCap"));
    }
    var caps := new CapacityGroups({"StartCap", "EndCap"}, SelectCaps(grouped.value));
    caps.AddCapDifference();
    r := Ok(caps.groups);
  }

  // ----- costs -----

  /** A row of the system cost table: its `Costs` label and `Total`. */
  datatype CostRow = CostRow(costs: string, total: real)

  /** `get_total(df, cost_name)`: the `Total` of the first row labelled
      `cost_name`; `.values[0]` on an empty selection raises `IndexError`. */
  function GetTotal(rows: seq<CostRow>, costName: string): (r: Result<real>)
    ensures r.Err? <==> forall i :: 0 <= i < |rows| ==> rows[i].costs != costName
    ensures r.Err? ==> r.error == NoMatchingRow(costName)
    ensures r.Ok? ==> exists i :: 0 <= i < |rows| && rows[i].costs == costName && r.value == rows[i].total &&
                                 forall k :: 0 <= k < i ==> rows[k].costs != costName
  {
    match FirstWhere(rows, (row: CostRow) => row.costs == costName)
    case None => Err(NoMatchingRow(costName))
    case Some(i) => Ok(rows[i].total)
  }
}
