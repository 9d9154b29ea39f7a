/** The first version of the `viz_tools` wrangling script: one bin table
    whose carbon-capture branch can never fire, classification with
    `(Zone, Resource)` grouping, and the capacity analysis that melts
    `EndCap` together with the `Resource` column itself. */
module VizWranglingLongV1 {

  import opened Outcomes
  import opened Text
  import opened BinMatching
  import opened Grouping
  import opened Tables

  /** `energy_bins`, in declaration order. */
  const EnergyBins: seq<Bin> := [
    Bin("natural_gas", ["natural_gas", "naturalgas", "ng", "combined_cycle", "OCGT", "CCGT"]),
    Bin("natural_gas_w_CCS", ["natural_gas_ccs"]),
    Bin("hydroelectric", ["hydro", "hydroelectric"]),
    Bin("coal", ["coal"]),
    Bin("solar", ["solar", "pv"]),
    Bin("wind", ["wind"]),
    Bin("nuclear", ["nuclear"]),
    Bin("battery", ["battery", "lithium", "storage"]),
    Bin("H2", ["H2"])
  ]

  /** `categorize_energy_type(resource_name)`: the table is always bound, so
      it never fails. */
  function Categorize(name: string): string
  {
    Classify(Some(EnergyBins), NeverFires, name).value
  }

  /** The classifier as `apply` uses it. */
  function Categorizer(): string -> Result<string>
  {
    Classifier(Some(EnergyBins), NeverFires)
  }

  /** The classifier as written: lower-case, the "h2" override, then the
      nested first-match scan whose carbon-capture test never holds. */
  method CategorizeEnergyType(resourceName: string) returns (r: string)
    ensures Classify(Some(EnergyBins), NeverFires, resourceName) == Ok(r)
  {
    var s := Lower(resourceName);
    if Contains(s, "h2") {
      return "H2";
    }
    r := ScanBins(EnergyBins, NeverFires, s);
  }

  /** The patterns 'OCGT' and 'CCGT' of the `natural_gas` bin never occur in
      the lower-cased name. */
  lemma UpperCaseGasPatternsNeverMatch(name: string)
    ensures EnergyBins[0].patterns[4] == "OCGT" && !Contains(Lower(name), EnergyBins[0].patterns[4])
    ensures EnergyBins[0].patterns[5] == "CCGT" && !Contains(Lower(name), EnergyBins[0].patterns[5])
  {
    var b := EnergyBins[0];
    assert IsUpper(b.patterns[4][0]) && IsUpper(b.patterns[5][0]);
    UpperCasePatternNeverMatches(b, 4, name);
    UpperCasePatternNeverMatches(b, 5, name);
  }

  /** The carbon-capture branch never fires: the matched key is returned as
      it is. */
  lemma NoCcsSuffix(name: string, i: nat)
    requires !Contains(Lower(name), "h2") && i < |EnergyBins| && BinMatches(EnergyBins[i], Lower(name))
    requires forall k :: 0 <= k < i ==> !BinMatches(EnergyBins[k], Lower(name))
    ensures Categorize(name) == EnergyBins[i].name
  {
    ClassifyByBin(EnergyBins, NeverFires, name, i);
  }

  /** `natural_gas_w_CCS` is never the result: the carbon-capture branch
      never fires, and the `natural_gas_w_CCS` bin is shadowed by the earlier
      `natural_gas` bin. */
  lemma NaturalGasWithCcsNeverReturned(name: string)
    ensures Categorize(name) != "natural_gas_w_CCS"
  {
    var bins := EnergyBins;
    var key := bins[1].name;
    assert key == "natural_gas_w_CCS" && IsUpper(key[14]);
    assert Shadows(bins[0], bins[1]) by {
      var p := "natural_gas_ccs";
      assert bins[1].patterns == [p];
      assert p[0..11] == "natural_gas";
      ContainsAt(p, "natural_gas", 0);
      assert bins[0].patterns[0] == "natural_gas";
    }
    forall k | 0 <= k < |bins| && k != 1
      ensures bins[k].name != key && bins[k].name + "_ccs" != key
    {
      var suffixed := bins[k].name + "_ccs";
      assert suffixed[|suffixed| - 1] == 's';
      assert |bins[k].name| != |key|;
    }
    ShadowedKeyNeverReturned(bins, NeverFires, name, 0, 1);
  }

  /** `identify_tech_type(df)` with `aggregate=True`. */
  method IdentifyTechType(df: Frame) returns (r: Result<seq<Group<(string, string)>>>)
    requires WellFormed(df.Snapshot())
    modifies df
    ensures r == Identify(old(df.Snapshot()), Categorizer())
    ensures df.columns == old(df.columns)
    ensures df.rows == (if r.Ok? then Relabel(old(df.rows), MapResults(Categorizer(), Resources(old(df.rows))).value)
                        else old(df.rows))
  {
    r := df.IdentifyTechType(Categorizer());
  }

  /** Classification and grouping never fail here, yield one group per
      distinct `(Zone, category)` and keep every zone's column totals. */
  lemma IdentifyGroups(t: Table, z: string, c: string)
    requires WellFormed(t)
    ensures Identify(t, Categorizer()).Ok?
    ensures UniqueKeys(Identify(t, Categorizer()).value)
    ensures forall key :: key in Keys(Identify(t, Categorizer()).value) <==>
              exists i :: 0 <= i < |t.rows| && key == (t.rows[i].zone, Categorize(t.rows[i].resource))
    ensures c in t.columns ==> GroupZoneTotal(Identify(t, Categorizer()).value, z, c) == ZoneTotal(t.rows, z, c)
  {
    ClassifiedGrouping(t, Some(EnergyBins), NeverFires, z, c);
  }

  // ----- the capacity analysis -----

  /** A melted cell: `EndCap` values are numbers, `Resource` values are the
      category text. */
  datatype Cell = Num(x: real) | Text(s: string)

  /** One record of the melted capacity table. */
  datatype MixedRecord = MixedRecord(zone: string, resource: string, metric: string, value: Cell)

  /** The `Type` renaming of `capacity_w_H2G2p_analysis`. */
  const CapacityRename: map<string, string> :=
    map["EndCap" := "electricity_capacity_MW", "AnnualGeneration" := "electricity_generation_MWh"]

  /** `pd.melt(df, id_vars=['Zone', 'Resource'], value_vars=['EndCap',
      'Resource'])` then the rename: one `EndCap` record per row, then one
      record per row whose value is its `Resource`. */
  function MeltCapacityAndResource(t: Table): (r: seq<MixedRecord>)
    requires WellFormed(t) && "EndCap" in t.columns
    ensures |r| == 2 * |t.rows|
    ensures forall i :: 0 <= i < |t.rows| ==>
              r[i] == MixedRecord(t.rows[i].zone, t.rows[i].resource, "electricity_capacity_MW", Num(t.rows[i].metrics["EndCap"]))
    ensures forall i :: |t.rows| <= i < |r| ==>
              r[i] == MixedRecord(t.rows[i - |t.rows|].zone, t.rows[i - |t.rows|].resource, "Resource", Text(t.rows[i - |t.rows|].resource))
  {
    assert RenameMetric("EndCap", CapacityRename) == "electricity_capacity_MW";
    assert RenameMetric("Resource", CapacityRename) == "Resource";
    seq(|t.rows|, i requires 0 <= i < |t.rows| =>
      MixedRecord(t.rows[i].zone, t.rows[i].resource, RenameMetric("EndCap", CapacityRename), Num(t.rows[i].metrics["EndCap"]))) +
    seq(|t.rows|, i requires 0 <= i < |t.rows| =>
      MixedRecord(t.rows[i].zone, t.rows[i].resource, RenameMetric("Resource", CapacityRename), Text(t.rows[i].resource)))
  }

  /** The grouped table the melt reads: "Total" dropped, then classified and
      grouped by `(Zone, Resource)`. */
  function Grouped(capacity: Table): (r: Table)
    requires WellFormed(capacity)
    ensures WellFormed(r) && r.columns == capacity.columns
  {
    var df := DropTotal(capacity);
    IdentifyGroups(df, "", "");
    GroupedTable(df.columns, Identify(df, Categorizer()).value)
  }

  /** Each zone's total of a numeric column in the grouped table is the
      input's total minus that zone's "Total" rows. */
  lemma GroupedZoneTotal(capacity: Table, z: string, c: string)
    requires WellFormed(capacity) && c in capacity.columns
    ensures ZoneTotal(Grouped(capacity).rows, z, c) ==
              ZoneTotal(capacity.rows, z, c) - NamedZoneTotal(capacity.rows, "Total", z, c)
  {
    var df := DropTotal(capacity);
    IdentifyGroups(df, z, c);
    var gs := Identify(df, Categorizer()).value;
    assert forall i :: 0 <= i < |gs| ==> GroupedTable(df.columns, gs).rows[i].metrics == gs[i].sums;
    GroupedTableZoneTotal(df.columns, gs, z, c);
    DropTotalZoneTotal(capacity, z, c);
  }

  /** `capacity_w_H2G2p_analysis` after reading the file: drop "Total",
      classify and group, select `EndCap` and `AnnualGeneration`, melt. */
  function CapacityWithH2G2pAnalysis(capacity: Table): (r: Result<seq<MixedRecord>>)
    requires WellFormed(capacity)
  {
    var selected :- Select(Grouped(capacity), ["EndCap", "AnnualGeneration"]);
    Ok(MeltCapacityAndResource(selected))
  }

  /** The analysis fails exactly when `EndCap` or `AnnualGeneration` is
      missing, naming `EndCap` first. */
  lemma CapacityAnalysisFailures(capacity: Table)
    requires WellFormed(capacity)
    ensures CapacityWithH2G2pAnalysis(capacity).Ok? <==>
              "EndCap" in capacity.columns && "AnnualGeneration" in capacity.columns
    ensures "EndCap" !in capacity.columns ==> CapacityWithH2G2pAnalysis(capacity) == Err(MissingColumn("EndCap"))
  {
    var vars := ["EndCap", "AnnualGeneration"];
    assert forall c :: c in vars <==> c == "EndCap" || c == "AnnualGeneration";
  }

  /** Each grouped row `i` gives an `electricity_capacity_MW` record with its
      summed `EndCap` at `i`, and a `Resource` record carrying its category
      at `n + i`. */
  lemma CapacityAnalysisRecords(capacity: Table, r: seq<MixedRecord>)
    requires WellFormed(capacity) && CapacityWithH2G2pAnalysis(capacity) == Ok(r)
    ensures |r| == 2 * |Grouped(capacity).rows|
    ensures forall i :: 0 <= i < |Grouped(capacity).rows| ==>
              r[i] == MixedRecord(Grouped(capacity).rows[i].zone, Grouped(capacity).rows[i].resource,
                                  "electricity_capacity_MW", Num(Grouped(capacity).rows[i].metrics["EndCap"]))
    ensures forall i :: |Grouped(capacity).rows| <= i < |r| ==>
              r[i].metric == "Resource" && r[i].value == Text(r[i].resource)
  {
    var selected := Select(Grouped(capacity), ["EndCap", "AnnualGeneration"]).value;
    assert r == MeltCapacityAndResource(selected);
  }

  /** Every record's `(Zone, Resource)` is the zone and category of some
      input row other than "Total": the sentinel row is gone before
      classification. */
  lemma CapacityAnalysisDropsTotal(capacity: Table, r: seq<MixedRecord>, rec: MixedRecord)
    requires WellFormed(capacity) && CapacityWithH2G2pAnalysis(capacity) == Ok(r) && rec in r
    ensures exists i :: 0 <= i < |capacity.rows| && capacity.rows[i].resource != "Total" &&
                        rec.zone == capacity.rows[i].zone && rec.resource == Categorize(capacity.rows[i].resource)
  {
    var df := DropTotal(capacity);
    IdentifyGroups(df, "", "");
    var gs := Identify(df, Categorizer()).value;
    var g := Grouped(capacity);
    var selected := Select(g, ["EndCap", "AnnualGeneration"]).value;
    var n := |selected.rows|;
    assert r == MeltCapacityAndResource(selected);
    var k :| 0 <= k < |r| && r[k] == rec;
    var j := if k < n then k else k - n;
    assert rec.zone == selected.rows[j].zone && rec.resource == selected.rows[j].resource;
    assert (rec.zone, rec.resource) == gs[j].key;
    assert gs[j].key in Keys(gs);
    var i :| 0 <= i < |df.rows| && gs[j].key == (df.rows[i].zone, Categorize(df.rows[i].resource));
    assert df.rows[i] in capacity.rows;
  }
}
