/** The `viz_tools` wrangling script: its own electricity and hydrogen bin
    tables, the same classifier with its `_ccs` rule, classification with
    `(Zone, Resource)` grouping, and the analyses that concatenate two melts
    of the grouped capacity table without any storage filter. */
module VizWranglingLong {

  import opened Outcomes
  import opened Text
  import opened BinMatching
  import opened Grouping
  import opened Tables

  /** `elec_bins`, in declaration order. */
  const ElecBins: seq<Bin> := [
    Bin("natural_gas", ["natural_gas", "naturalgas", "ng", "combined_cycle", "ocgt", "ccgt"]),
    Bin("natural_gas_w_CCS", ["natural_gas_ccs"]),
    Bin("hydroelectric", ["hydro", "hydroelectric", "ror"]),
    Bin("coal", ["coal"]),
    Bin("solar", ["solar", "pv"]),
    Bin("wind", ["wind"]),
    Bin("nuclear", ["nuclear"]),
    Bin("battery", ["battery", "lithium", "storage"]),
    Bin("phs", ["phs", "pumped"]),
    Bin("oil", ["oil"]),
    Bin("biomass", ["biomass"]),
    Bin("H2", ["H2"])
  ]

  /** `h2_bins`, in declaration order; the electrolyser key is spelled
      `elecrolyzer`. */
  const H2Bins: seq<Bin> := [
    Bin("smr", ["smr"]),
    Bin("atr", ["atr"]),
    Bin("elecrolyzer", ["electrolyzer"]),
    Bin("h2_storage", ["storage"])
  ]

  /** The table `cat_bins` is bound to; `None` when `bin_type` is neither
      "elec" nor "h2" (the `TypeError` is built but not raised). */
  function BinsFor(binType: string): Option<seq<Bin>>
  {
    if binType == "elec" then Some(ElecBins)
    else if binType == "h2" then Some(H2Bins)
    else None
  }

  /** `categorize_energy_type(resource_name, bin_type)` as `apply` uses it. */
  function Categorizer(binType: string): string -> Result<string>
  {
    Classifier(BinsFor(binType), SuffixWhenNamed)
  }

  /** The classifier as written: lower-case, the "h2" override, the choice
      of table, then the nested first-match scan. */
  method CategorizeEnergyType(resourceName: string, binType: string) returns (r: Result<string>)
    ensures r == Classify(BinsFor(binType), SuffixWhenNamed, resourceName)
  {
    var s := Lower(resourceName);
    if Contains(s, "h2") {
      return Ok("H2");
    }
    var bins: seq<Bin>;
    if binType == "elec" {
      bins := ElecBins;
    } else if binType == "h2" {
      bins := H2Bins;
    } else {
      return Err(UnboundBins);
    }
    var c := ScanBins(bins, SuffixWhenNamed, s);
    return Ok(c);
  }

  /** Any name matching the `natural_gas_w_CCS` pattern also matches the
      earlier `natural_gas` bin. */
  lemma CcsPatternImpliesNaturalGas(s: string)
    requires Contains(s, "natural_gas_ccs")
    ensures Contains(s, "natural_gas") && Contains(s, "ccs")
  {
    ContainsParts(s, "natural_gas_ccs", "natural_gas", "ccs");
  }

  /** A key with `_ccs` appended ends in a lower-case 's', so it is never
      `natural_gas_w_CCS`. */
  lemma SuffixedIsNotCcsKey(key: string)
    ensures key + "_ccs" != "natural_gas_w_CCS"
  {
    var suffixed := key + "_ccs";
    assert suffixed[|suffixed| - 1] == 's';
  }

  /** `natural_gas_w_CCS` is never the result: its only pattern contains
      "natural_gas", which the earlier `natural_gas` bin owns, and every
      other result either lacks its upper-case letters or ends in "_ccs". */
  lemma NaturalGasWithCcsNeverReturned(name: string)
    ensures Classify(Some(ElecBins), SuffixWhenNamed, name) != Ok("natural_gas_w_CCS")
  {
    var bins := ElecBins;
    var key := bins[1].name;
    assert key == "natural_gas_w_CCS" && IsUpper(key[14]);
    assert Shadows(bins[0], bins[1]) by {
      assert bins[1].patterns == ["natural_gas_ccs"];
      CcsPatternImpliesNaturalGas("natural_gas_ccs");
      assert bins[0].patterns[0] == "natural_gas";
    }
    forall k | 0 <= k < |bins| && k != 1
      ensures bins[k].name != key && bins[k].name + "_ccs" != key
    {
      SuffixedIsNotCcsKey(bins[k].name);
      assert |bins[k].name| != |key|;
    }
    ShadowedKeyNeverReturned(bins, SuffixWhenNamed, name, 0, 1);
  }

  /** Names whose lower-cased form contains "natural_gas_ccs" (and not "h2")
      are classified `natural_gas_ccs` by the `_ccs` rule of the first bin. */
  lemma CcsNamesGetSuffix(name: string)
    requires !Contains(Lower(name), "h2") && Contains(Lower(name), "natural_gas_ccs")
    ensures Classify(Some(ElecBins), SuffixWhenNamed, name) == Ok("natural_gas_ccs")
  {
    var b := ElecBins[0];
    assert b.name == "natural_gas" && b.patterns[0] == "natural_gas";
    NaturalGasBinSuffix(b, Lower(name));
    ClassifyByBin(ElecBins, SuffixWhenNamed, name, 0);
  }

  /** A `natural_gas` bin matches a name containing "natural_gas_ccs" and
      appends `_ccs` to its key. */
  lemma NaturalGasBinSuffix(b: Bin, s: string)
    requires b.name == "natural_gas" && |b.patterns| > 0 && b.patterns[0] == "natural_gas"
    requires Contains(s, "natural_gas_ccs")
    ensures BinMatches(b, s)
    ensures Matched(b, SuffixWhenNamed, s) == "natural_gas_ccs"
  {
    CcsPatternImpliesNaturalGas(s);
    assert Contains(s, b.patterns[0]);
    assert b.name + "_ccs" == "natural_gas_ccs";
  }

  /** A name with "electrolyzer" and none of "h2", "smr", "atr" falls in the
      misspelt `elecrolyzer` bin; the `_ccs` rule would need the misspelt key
      itself in the name. */
  lemma ElectrolyzerBinSpelling(name: string)
    requires !Contains(Lower(name), "h2") && !Contains(Lower(name), "smr") && !Contains(Lower(name), "atr")
    requires Contains(Lower(name), "electrolyzer")
    ensures Classify(Some(H2Bins), SuffixWhenNamed, name) ==
              Ok(if Contains(Lower(name), "elecrolyzer") && Contains(Lower(name), "ccs") then "elecrolyzer_ccs" else "elecrolyzer")
  {
    var s := Lower(name);
    assert H2Bins[0].patterns == ["smr"] && H2Bins[1].patterns == ["atr"];
    assert H2Bins[2] == Bin("elecrolyzer", ["electrolyzer"]);
    assert Contains(s, H2Bins[2].patterns[0]);
    ClassifyByBin(H2Bins, SuffixWhenNamed, name, 2);
    assert H2Bins[2].name + "_ccs" == "elecrolyzer_ccs";
  }

  /** `identify_tech_type(df, bin_type)` with `aggregate=True`. */
  method IdentifyTechType(df: Frame, binType: string) returns (r: Result<seq<Group<(string, string)>>>)
    requires WellFormed(df.Snapshot())
    modifies df
    ensures r == Identify(old(df.Snapshot()), Categorizer(binType))
    ensures df.columns == old(df.columns)
    ensures df.rows == (if r.Ok? then Relabel(old(df.rows), MapResults(Categorizer(binType), Resources(old(df.rows))).value)
                        else old(df.rows))
  {
    r := df.IdentifyTechType(Categorizer(binType));
  }

  // ----- the double-melt analyses -----

  /** The two melts concatenated: `EndCap` then `AnnualGeneration` records
      with the first renaming, then `AnnualGeneration` then `EndCap` records
      with the second. */
  function DoubleMelt(t: Table, first: map<string, string>, second: map<string, string>): (r: seq<LongRecord>)
    requires WellFormed(t) && "EndCap" in t.columns && "AnnualGeneration" in t.columns
    ensures |r| == 4 * |t.rows|
    ensures forall i :: 0 <= i < |t.rows| ==>
              r[i] == Renamed(t.rows[i], "EndCap", first) &&
              r[|t.rows| + i] == Renamed(t.rows[i], "AnnualGeneration", first) &&
              r[2 * |t.rows| + i] == Renamed(t.rows[i], "AnnualGeneration", second) &&
              r[3 * |t.rows| + i] == Renamed(t.rows[i], "EndCap", second)
  {
    MeltTwo(t, "EndCap", "AnnualGeneration");
    MeltTwo(t, "AnnualGeneration", "EndCap");
    RenamedMeltTwo(t, "EndCap", "AnnualGeneration", first);
    RenamedMeltTwo(t, "AnnualGeneration", "EndCap", second);
    RenameTypes(Melt(t, ["EndCap", "AnnualGeneration"]).value, first) +
    RenameTypes(Melt(t, ["AnnualGeneration", "EndCap"]).value, second)
  }

  /** The grouped table the melts read: "Total" dropped, then classified
      and grouped by `(Zone, Resource)`. */
  function Grouped(capacity: Table, binType: string): (r: Result<Table>)
    requires WellFormed(capacity)
    ensures r.Ok? ==> WellFormed(r.value) && r.value.columns == capacity.columns
  {
    var df := DropTotal(capacity);
    var grouped :- Identify(df, Categorizer(binType));
    Ok(GroupedTable(df.columns, grouped))
  }

  /** `electricity_analysis` / `h2_analysis` after reading the file: drop
      "Total", classify and group, select `EndCap` and `AnnualGeneration`,
      then concatenate the two melts. */
  function Analysis(capacity: Table, binType: string, first: map<string, string>, second: map<string, string>)
    : (r: Result<seq<LongRecord>>)
    requires WellFormed(capacity)
  {
    var grouped :- Grouped(capacity, binType);
    var selected :- Select(grouped, ["EndCap", "AnnualGeneration"]);
    Ok(DoubleMelt(selected, first, second))
  }

  /** Both melts of `electricity_analysis` rename to the same types. */
  const ElecRename: map<string, string> :=
    map["EndCap" := "electricity_capacity_MW", "AnnualGeneration" := "electricity_generation_MWh"]

  /** The first melt of `h2_analysis`. */
  const H2FirstRename: map<string, string> :=
    map["EndCap" := "h2_capacity_tonne_hr", "AnnualGeneration" := "h2_generation_tonne"]

  /** The second melt of `h2_analysis`. */
  const H2SecondRename: map<string, string> :=
    map["EndCap" := "h2capacity_MW", "AnnualGeneration" := "h2_generation_MWh"]

  function ElectricityAnalysis(capacity: Table): Result<seq<LongRecord>>
    requires WellFormed(capacity)
  {
    Analysis(capacity, "elec", ElecRename, ElecRename)
  }

  function H2Analysis(capacity: Table): Result<seq<LongRecord>>
    requires WellFormed(capacity)
  {
    Analysis(capacity, "h2", H2FirstRename, H2SecondRename)
  }

  /** With a valid bin type the analysis fails exactly when the capacity table
      lacks `EndCap` or `AnnualGeneration`, naming `EndCap` first. */
  lemma AnalysisFailures(capacity: Table, binType: string, first: map<string, string>, second: map<string, string>)
    requires WellFormed(capacity) && BinsFor(binType).Some?
    ensures Analysis(capacity, binType, first, second).Ok? <==>
              "EndCap" in capacity.columns && "AnnualGeneration" in capacity.columns
    ensures "EndCap" !in capacity.columns ==> Analysis(capacity, binType, first, second) == Err(MissingColumn("EndCap"))
    ensures "EndCap" in capacity.columns && "AnnualGeneration" !in capacity.columns ==>
              Analysis(capacity, binType, first, second) == Err(MissingColumn("AnnualGeneration"))
  {
    ClassifiedGrouping(DropTotal(capacity), BinsFor(binType), SuffixWhenNamed, "", "");
    var vars := ["EndCap", "AnnualGeneration"];
    assert forall c :: c in vars <==> c == "EndCap" || c == "AnnualGeneration";
  }

  /** Each zone's total of a numeric column in the grouped table is the
      input's total minus that zone's "Total" rows. */
  lemma GroupedZoneTotal(capacity: Table, binType: string, z: string, c: string)
    requires WellFormed(capacity) && c in capacity.columns && Grouped(capacity, binType).Ok?
    ensures ZoneTotal(Grouped(capacity, binType).value.rows, z, c) ==
              ZoneTotal(capacity.rows, z, c) - NamedZoneTotal(capacity.rows, "Total", z, c)
  {
    var df := DropTotal(capacity);
    var gs := Identify(df, Categorizer(binType)).value;
    assert forall i :: 0 <= i < |gs| ==> GroupedTable(df.columns, gs).rows[i].metrics == gs[i].sums;
    GroupedTableZoneTotal(df.columns, gs, z, c);
    IdentifyConservesZoneTotals(df, Categorizer(binType), z, c);
    DropTotalZoneTotal(capacity, z, c);
  }

  /** The number of `(Zone, category)` groups the melts read. */
  function GroupCount(capacity: Table, binType: string): nat
    requires WellFormed(capacity)
  {
    match Grouped(capacity, binType)
    case Ok(g) => |g.rows|
    case Err(_) => 0
  }

  /** Records `recs` with their type replaced by `m`. */
  function WithType(recs: seq<LongRecord>, m: string): (r: seq<LongRecord>)
    ensures |r| == |recs|
    ensures forall i :: 0 <= i < |recs| ==> r[i] == recs[i].(metric := m)
  {
    seq(|recs|, i requires 0 <= i < |recs| => recs[i].(metric := m))
  }

  /** With one renaming for both melts, the second half is the first half with
      its two blocks swapped. */
  lemma DoubleMeltRepeats(t: Table, rename: map<string, string>)
    requires WellFormed(t) && "EndCap" in t.columns && "AnnualGeneration" in t.columns
    ensures var r := DoubleMelt(t, rename, rename);
            var n := |t.rows|;
            r[3 * n..] == r[..n] && r[2 * n..3 * n] == r[n..2 * n] &&
            multiset(r[..2 * n]) == multiset(r[2 * n..])
  {
    var r := DoubleMelt(t, rename, rename);
    var n := |t.rows|;
    forall i | 0 <= i < n
      ensures r[3 * n..][i] == r[..n][i] && r[2 * n..3 * n][i] == r[n..2 * n][i]
    {
      assert r[3 * n + i] == r[i];
      assert r[2 * n + i] == r[n + i];
    }
    var a := r[..n];
    var b := r[n..2 * n];
    assert r[..2 * n] == a + b;
    assert r[2 * n..] == r[2 * n..3 * n] + r[3 * n..];
  }

  /** With the two `h2_analysis` renamings, each record of the second melt is
      a record of the first with a different type. */
  lemma DoubleMeltRelabels(t: Table)
    requires WellFormed(t) && "EndCap" in t.columns && "AnnualGeneration" in t.columns
    ensures var r := DoubleMelt(t, H2FirstRename, H2SecondRename);
            var n := |t.rows|;
            r[3 * n..] == WithType(r[..n], "h2capacity_MW") &&
            r[2 * n..3 * n] == WithType(r[n..2 * n], "h2_generation_MWh")
    ensures forall i :: 0 <= i < |t.rows| ==>
              DoubleMelt(t, H2FirstRename, H2SecondRename)[i].metric == "h2_capacity_tonne_hr"
    ensures forall i :: |t.rows| <= i < 2 * |t.rows| ==>
              DoubleMelt(t, H2FirstRename, H2SecondRename)[i].metric == "h2_generation_tonne"
  {
    var r := DoubleMelt(t, H2FirstRename, H2SecondRename);
    var n := |t.rows|;
    assert RenameMetric("EndCap", H2FirstRename) == "h2_capacity_tonne_hr";
    assert RenameMetric("AnnualGeneration", H2FirstRename) == "h2_generation_tonne";
    assert RenameMetric("EndCap", H2SecondRename) == "h2capacity_MW";
    assert RenameMetric("AnnualGeneration", H2SecondRename) == "h2_generation_MWh";
    forall i | 0 <= i < n
      ensures r[3 * n..][i] == WithType(r[..n], "h2capacity_MW")[i]
      ensures r[2 * n..3 * n][i] == WithType(r[n..2 * n], "h2_generation_MWh")[i]
    {
      assert r[3 * n + i] == Renamed(t.rows[i], "EndCap", H2SecondRename);
      assert r[i] == Renamed(t.rows[i], "EndCap", H2FirstRename);
      assert r[2 * n + i] == Renamed(t.rows[i], "AnnualGeneration", H2SecondRename);
      assert r[n + i] == Renamed(t.rows[i], "AnnualGeneration", H2FirstRename);
    }
    forall i | 0 <= i < n ensures r[i].metric == "h2_capacity_tonne_hr" {
      assert r[i] == Renamed(t.rows[i], "EndCap", H2FirstRename);
    }
    forall i | n <= i < 2 * n ensures r[i].metric == "h2_generation_tonne" {
      assert r[i] == r[n + (i - n)] == Renamed(t.rows[i - n], "AnnualGeneration", H2FirstRename);
    }
  }

  /** Every record of the melts carries the zone and resource of some row. */
  lemma DoubleMeltKeys(t: Table, first: map<string, string>, second: map<string, string>, rec: LongRecord)
    requires WellFormed(t) && "EndCap" in t.columns && "AnnualGeneration" in t.columns
    requires rec in DoubleMelt(t, first, second)
    ensures exists j :: 0 <= j < |t.rows| && rec.zone == t.rows[j].zone && rec.resource == t.rows[j].resource
  {
    var r := DoubleMelt(t, first, second);
    var n := |t.rows|;
    var k :| 0 <= k < |r| && r[k] == rec;
    var j := if k < n then k else if k < 2 * n then k - n else if k < 3 * n then k - 2 * n else k - 3 * n;
    assert k == j || k == n + j || k == 2 * n + j || k == 3 * n + j;
    assert rec.zone == t.rows[j].zone && rec.resource == t.rows[j].resource;
  }

  /** The output has four records per group, and its second half repeats the
      first: the same records, equally often. */
  lemma ElectricityAnalysisRepeats(capacity: Table, r: seq<LongRecord>)
    requires WellFormed(capacity) && ElectricityAnalysis(capacity) == Ok(r)
    ensures |r| == 4 * GroupCount(capacity, "elec")
    ensures r[3 * GroupCount(capacity, "elec")..] == r[..GroupCount(capacity, "elec")]
    ensures r[2 * GroupCount(capacity, "elec")..3 * GroupCount(capacity, "elec")] ==
            r[GroupCount(capacity, "elec")..2 * GroupCount(capacity, "elec")]
    ensures multiset(r[..2 * GroupCount(capacity, "elec")]) == multiset(r[2 * GroupCount(capacity, "elec")..])
  {
    var g := Grouped(capacity, "elec").value;
    var selected := Select(g, ["EndCap", "AnnualGeneration"]).value;
    assert r == DoubleMelt(selected, ElecRename, ElecRename);
    DoubleMeltRepeats(selected, ElecRename);
  }

  /** The two melts of `h2_analysis` carry the same values under different
      types: `h2_capacity_tonne_hr` against `h2capacity_MW` and
      `h2_generation_tonne` against `h2_generation_MWh`. */
  lemma H2AnalysisLabels(capacity: Table, r: seq<LongRecord>)
    requires WellFormed(capacity) && H2Analysis(capacity) == Ok(r)
    ensures |r| == 4 * GroupCount(capacity, "h2")
    ensures forall i :: 0 <= i < GroupCount(capacity, "h2") ==> r[i].metric == "h2_capacity_tonne_hr"
    ensures forall i :: GroupCount(capacity, "h2") <= i < 2 * GroupCount(capacity, "h2") ==> r[i].metric == "h2_generation_tonne"
    ensures r[3 * GroupCount(capacity, "h2")..] == WithType(r[..GroupCount(capacity, "h2")], "h2capacity_MW")
    ensures r[2 * GroupCount(capacity, "h2")..3 * GroupCount(capacity, "h2")] ==
            WithType(r[GroupCount(capacity, "h2")..2 * GroupCount(capacity, "h2")], "h2_generation_MWh")
  {
    var g := Grouped(capacity, "h2").value;
    var selected := Select(g, ["EndCap", "AnnualGeneration"]).value;
    var n := |selected.rows|;
    assert r == DoubleMelt(selected, H2FirstRename, H2SecondRename);
    DoubleMeltRelabels(selected);
  }

  /** Every record's `(Zone, Resource)` is the zone and category of some
      input row other than "Total". */
  lemma AnalysisKeysFromNonTotalRows(capacity: Table, binType: string, first: map<string, string>, second: map<string, string>, rec: LongRecord)
    requires WellFormed(capacity) && Analysis(capacity, binType, first, second).Ok?
    requires rec in Analysis(capacity, binType, first, second).value
    ensures exists i :: 0 <= i < |capacity.rows| && capacity.rows[i].resource != "Total" &&
                        rec.zone == capacity.rows[i].zone &&
                        rec.resource == Classify(BinsFor(binType), SuffixWhenNamed, capacity.rows[i].resource).value
  {
    var df := DropTotal(capacity);
    var gs := Identify(df, Categorizer(binType)).value;
    var g := GroupedTable(df.columns, gs);
    var selected := Select(g, ["EndCap", "AnnualGeneration"]).value;
    DoubleMeltKeys(selected, first, second, rec);
    var j :| 0 <= j < |selected.rows| && rec.zone == selected.rows[j].zone && rec.resource == selected.rows[j].resource;
    assert (rec.zone, rec.resource) == gs[j].key;
    ClassifiedGrouping(df, BinsFor(binType), SuffixWhenNamed, "", "");
    assert gs[j].key in Keys(gs);
    var i :| 0 <= i < |df.rows| && gs[j].key == (df.rows[i].zone, Classify(BinsFor(binType), SuffixWhenNamed, df.rows[i].resource).value);
    assert df.rows[i] in capacity.rows;
  }
}
