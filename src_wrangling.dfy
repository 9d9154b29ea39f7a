/** The source-tree wrangling script: the electricity and hydrogen bin
    tables, the classifier with its `_ccs` rule, classification with
    `(Zone, Resource)` grouping, and the capacity/power pipeline that joins,
    melts, renames and filters into long records. */
module SrcWranglingLong {

  import opened Outcomes
  import opened Text
  import opened BinMatching
  import opened Grouping
  import opened Tables

  /** `elec_bins`, in declaration order. */
  const ElecBins: seq<Bin> := [
    Bin("natural_gas", ["natural_gas", "naturalgas", "ng", "combined_cycle", "ocgt", "ccgt"]),
    Bin("hydroelectric", ["hydro", "hydroelectric", "ror"]),
    Bin("coal", ["coal", "lignite"]),
    Bin("solar", ["solar", "pv"]),
    Bin("wind", ["wind"]),
    Bin("nuclear", ["nuclear"]),
    Bin("battery", ["battery", "lithium", "storage"]),
    Bin("phs", ["phs", "pumped"]),
    Bin("oil", ["oil"]),
    Bin("biomass", ["biomass"]),
    Bin("H2", ["H2"])
  ]

  /** `h2_bins`, in declaration order. */
  const H2Bins: seq<Bin> := [
    Bin("smr", ["smr"]),
    Bin("atr", ["atr"]),
    Bin("electrolyzer", ["electrolyzer", "electrolyzers"]),
    Bin("h2_storage", ["storage"]),
    Bin("flex_demand", ["flex_demand"])
  ]

  /** The table `cat_bins` is bound to; `None` when `bin_type` is neither
      "elec" nor "h2" (the `TypeError` is built but not raised). */
  function BinsFor(binType: string): Option<seq<Bin>>
  {
    if binType == "elec" then Some(ElecBins)
    else if binType == "h2" then Some(H2Bins)
    else None
  }

  /** `categorize_energy_type(resource_name, bin_type)` as `apply` uses it. */
  function Categorizer(binType: string): string -> Result<string>
  {
    Classifier(BinsFor(binType), SuffixWhenNamed)
  }

  /** The classifier as written: lower-case, the "h2" override, the choice
      of table, then the nested first-match scan. */
  method CategorizeEnergyType(resourceName: string, binType: string) returns (r: Result<string>)
    ensures r == Classify(BinsFor(binType), SuffixWhenNamed, resourceName)
  {
    var s := Lower(resourceName);
    if Contains(s, "h2") {
      return Ok("H2");
    }
    var bins: seq<Bin>;
    if binType == "elec" {
      bins := ElecBins;
    } else if binType == "h2" {
      bins := H2Bins;
    } else {
      return Err(UnboundBins);
    }
    var c := ScanBins(bins, SuffixWhenNamed, s);
    return Ok(c);
  }

  /** The `'H2'` key of `elec_bins` never decides a classification: its only
      pattern is upper-case and the name is lower-cased. */
  lemma ElecH2BinNeverMatches(name: string)
    ensures !BinMatches(ElecBins[10], Lower(name))
  {
    var b := ElecBins[10];
    assert b == Bin("H2", ["H2"]);
    assert IsUpper(b.patterns[0][0]);
    UpperCasePatternNeverMatches(b, 0, name);
  }

  /** `identify_tech_type(df, bin_type)` with `aggregate=True`. */
  method IdentifyTechType(df: Frame, binType: string) returns (r: Result<seq<Group<(string, string)>>>)
    requires WellFormed(df.Snapshot())
    modifies df
    ensures r == Identify(old(df.Snapshot()), Categorizer(binType))
    ensures df.columns == old(df.columns)
    ensures df.rows == (if r.Ok? then Relabel(old(df.rows), MapResults(Categorizer(binType), Resources(old(df.rows))).value)
                        else old(df.rows))
  {
    r := df.IdentifyTechType(Categorizer(binType));
  }

  // ----- the capacity / power pipeline -----

  /** `capacity_df_wrangler` after reading the file: drops every column whose
      name contains "AnnualGeneration" and every row whose resource is "Total". */
  function CapacityDfWrangler(t: Table): (r: Table)
    requires WellFormed(t)
    ensures WellFormed(r)
    ensures forall c :: c in r.columns <==> c in t.columns && !Contains(c, "AnnualGeneration")
    ensures forall row :: row in r.rows <==>
              exists i :: 0 <= i < |t.rows| && t.rows[i].resource != "Total" &&
                          row == Row(t.rows[i].zone, t.rows[i].resource, Restrict(t.rows[i].metrics, r.columns))
    ensures r.rows == RestrictRows(DropRowsNamed(t.rows, "Total"), r.columns)
  {
    var d := DropColumnsContaining(t, "AnnualGeneration");
    DropRowsNamedWellFormed(d, "Total");
    DropRowsNamedMembers(d.rows, "Total");
    DropColumnsRestrictRows(t, "AnnualGeneration");
    DropRowsNamedRestrict(t.rows, d.columns, "Total");
    Table(d.columns, DropRowsNamed(d.rows, "Total"))
  }

  /** The rows one power entry contributes to the inner join: one per
      capacity row with the same resource, in capacity order. */
  function JoinOne(resource: string, generation: real, cap: seq<Row>): (r: seq<Row>)
    ensures forall row :: row in r <==>
              exists j :: 0 <= j < |cap| && cap[j].resource == resource &&
                          row == Row(cap[j].zone, resource, cap[j].metrics["AnnualGeneration" := generation])
  {
    if cap == [] then []
    else
      var rest := JoinOne(resource, generation, cap[1..]);
      var head := if cap[0].resource == resource
                  then [Row(cap[0].zone, resource, cap[0].metrics["AnnualGeneration" := generation])]
                  else [];
      assert forall j :: 1 <= j < |cap| ==> cap[j] == cap[1..][j - 1];
      head + rest
  }

  /** `pd.merge(df_power, df_capacity, on='Resource', how='inner')`: for each
      power entry in order, one row per capacity row with that resource,
      carrying the capacity cells plus `AnnualGeneration`. */
  function MergeOnResource(power: seq<(string, real)>, cap: Table): (r: Table)
    requires WellFormed(cap)
    ensures r.columns == cap.columns + {"AnnualGeneration"}
    ensures WellFormed(r)
  {
    if power == [] then Table(cap.columns + {"AnnualGeneration"}, [])
    else
      var rest := MergeOnResource(power[1..], cap);
      var here := JoinOne(power[0].0, power[0].1, cap.rows);
      assert forall row :: row in here ==> row.metrics.Keys == rest.columns;
      Table(rest.columns, here + rest.rows)
  }

  /** The joined row built from power entry `i` and capacity row `j`. */
  function Joined(power: seq<(string, real)>, cap: Table, i: nat, j: nat): Row
    requires i < |power| && j < |cap.rows|
  {
    Row(cap.rows[j].zone, cap.rows[j].resource, cap.rows[j].metrics["AnnualGeneration" := power[i].1])
  }

  /** Every joined row comes from a power entry and a capacity row with the
      same resource. */
  lemma {:induction false} MergeRowOrigin(power: seq<(string, real)>, cap: Table, row: Row) returns (i: nat, j: nat)
    requires WellFormed(cap) && row in MergeOnResource(power, cap).rows
    ensures i < |power| && j < |cap.rows| && power[i].0 == cap.rows[j].resource
    ensures row == Joined(power, cap, i, j)
  {
    var here := JoinOne(power[0].0, power[0].1, cap.rows);
    var rest := MergeOnResource(power[1..], cap);
    assert MergeOnResource(power, cap).rows == here + rest.rows;
    if row in here {
      i := 0;
      j :| 0 <= j < |cap.rows| && cap.rows[j].resource == power[0].0 &&
           row == Row(cap.rows[j].zone, power[0].0, cap.rows[j].metrics["AnnualGeneration" := power[0].1]);
    } else {
      var i', j' := MergeRowOrigin(power[1..], cap, row);
      j := j';
      i := i' + 1;
    }
  }

  /** Every pair of a power entry and a capacity row with the same resource
      gives a joined row. */
  lemma {:induction false} MergeRowPresent(power: seq<(string, real)>, cap: Table, i: nat, j: nat)
    requires WellFormed(cap) && i < |power| && j < |cap.rows| && power[i].0 == cap.rows[j].resource
    ensures Joined(power, cap, i, j) in MergeOnResource(power, cap).rows
  {
    var here := JoinOne(power[0].0, power[0].1, cap.rows);
    var rest := MergeOnResource(power[1..], cap);
    assert MergeOnResource(power, cap).rows == here + rest.rows;
    if i == 0 {
      assert Joined(power, cap, i, j) in here;
    } else {
      MergeRowPresent(power[1..], cap, i - 1, j);
      assert Joined(power[1..], cap, i - 1, j) == Joined(power, cap, i, j);
    }
  }

  /** The join keeps only resources present in both tables: every joined
      row's resource names a power entry and a non-"Total" capacity row. */
  lemma {:induction false} JoinKeepsSharedResources(capacity: Table, power: seq<(string, real)>, row: Row)
    requires WellFormed(capacity)
    requires row in MergeOnResource(power, CapacityDfWrangler(capacity)).rows
    ensures exists i :: 0 <= i < |power| && power[i].0 == row.resource
    ensures exists j :: 0 <= j < |capacity.rows| && capacity.rows[j].resource == row.resource && row.resource != "Total"
  {
    var cap := CapacityDfWrangler(capacity);
    var i, j := MergeRowOrigin(power, cap, row);
    assert cap.rows[j] in cap.rows;
  }

  /** Storage/battery discharge: the resource contains "storage" or "battery"
      and the type contains "generation", both ignoring case. */
  predicate IsDischarge(rec: LongRecord)
  {
    (Contains(Lower(rec.resource), "storage") || Contains(Lower(rec.resource), "battery")) &&
    Contains(Lower(rec.metric), "generation")
  }

  /** `melted_df[~(...)]`: keeps, in order, exactly the records that are not discharge. */
  function DropDischarge(recs: seq<LongRecord>): (r: seq<LongRecord>)
    ensures forall rec :: rec in r <==> rec in recs && !IsDischarge(rec)
    ensures |r| <= |recs|
  {
    if recs == [] then []
    else if IsDischarge(recs[0]) then DropDischarge(recs[1..])
    else [recs[0]] + DropDischarge(recs[1..])
  }

  /** The discharge filter distributes over concatenation, so the kept
      records stay in their input order. */
  lemma {:induction false} DropDischargeConcat(a: seq<LongRecord>, b: seq<LongRecord>)
    ensures DropDischarge(a + b) == DropDischarge(a) + DropDischarge(b)
  {
    if a != [] {
      var ab := a + b;
      assert ab[0] == a[0] && ab[1..] == a[1..] + b;
      DropDischargeConcat(a[1..], b);
      var rest := DropDischarge(a[1..]) + DropDischarge(b);
      if IsDischarge(a[0]) {
        assert DropDischarge(ab) == rest;
      } else {
        assert DropDischarge(ab) == [a[0]] + rest;
        assert [a[0]] + rest == ([a[0]] + DropDischarge(a[1..])) + DropDischarge(b);
      }
    } else {
      assert a + b == b;
    }
  }

  /** On a single record the filter keeps it exactly when it is not discharge. */
  lemma DropDischargeOne(rec: LongRecord)
    ensures DropDischarge([rec]) == if IsDischarge(rec) then [] else [rec]
  {
    assert [rec][1..] == [];
  }

  /** A record that is not discharge is kept as often as it occurs; a
      discharge record not at all. */
  lemma {:induction false} DropDischargeCount(recs: seq<LongRecord>, rec: LongRecord)
    ensures multiset(DropDischarge(recs))[rec] == if IsDischarge(rec) then 0 else multiset(recs)[rec]
  {
    if recs != [] {
      DropDischargeCount(recs[1..], rec);
      assert recs == [recs[0]] + recs[1..];
    }
  }

  /** `melt_and_rename(df, rename_dict)`: selecting the columns raises
      `KeyError` for a missing `EndCap` or `AnnualGeneration`. */
  function MeltAndRename(t: Table, rename: map<string, string>): (r: Result<seq<LongRecord>>)
    requires WellFormed(t)
    ensures r.Ok? <==> "EndCap" in t.columns && "AnnualGeneration" in t.columns
    ensures r.Err? ==> r.error == MissingColumn(if "EndCap" !in t.columns then "EndCap" else "AnnualGeneration")
  {
    if "EndCap" !in t.columns then Err(MissingColumn("EndCap"))
    else if "AnnualGeneration" !in t.columns then Err(MissingColumn("AnnualGeneration"))
    else
      MeltTwo(t, "EndCap", "AnnualGeneration");
      Ok(DropDischarge(RenameTypes(Melt(t, ["EndCap", "AnnualGeneration"]).value, rename)))
  }

  /** Before filtering: the renamed `EndCap` record of every row, then the
      renamed `AnnualGeneration` record of every row. */
  lemma {:induction false} RenamedMeltRecords(t: Table, rename: map<string, string>, rec: LongRecord)
    requires WellFormed(t) && "EndCap" in t.columns && "AnnualGeneration" in t.columns
    ensures rec in RenameTypes(MeltColumn(t, "EndCap") + MeltColumn(t, "AnnualGeneration"), rename) <==>
              exists i :: 0 <= i < |t.rows| &&
                (rec == Renamed(t.rows[i], "EndCap", rename) || rec == Renamed(t.rows[i], "AnnualGeneration", rename))
  {
    var renamed := RenameTypes(MeltColumn(t, "EndCap") + MeltColumn(t, "AnnualGeneration"), rename);
    var n := |t.rows|;
    var melted := MeltColumn(t, "EndCap") + MeltColumn(t, "AnnualGeneration");
    assert |renamed| == 2 * n;
    forall i | 0 <= i < n
      ensures renamed[i] == Renamed(t.rows[i], "EndCap", rename)
      ensures renamed[n + i] == Renamed(t.rows[i], "AnnualGeneration", rename)
    {
      assert melted[i] == MeltColumn(t, "EndCap")[i];
      assert melted[n + i] == MeltColumn(t, "AnnualGeneration")[i];
    }
    if rec in renamed {
      var k :| 0 <= k < |renamed| && renamed[k] == rec;
      if k < n {
        assert rec == Renamed(t.rows[k], "EndCap", rename);
      } else {
        assert rec == Renamed(t.rows[k - n], "AnnualGeneration", rename);
      }
    }
    if exists i :: 0 <= i < n && (rec == Renamed(t.rows[i], "EndCap", rename) || rec == Renamed(t.rows[i], "AnnualGeneration", rename)) {
      var i :| 0 <= i < n && (rec == Renamed(t.rows[i], "EndCap", rename) || rec == Renamed(t.rows[i], "AnnualGeneration", rename));
      if rec == Renamed(t.rows[i], "EndCap", rename) {
        assert renamed[i] == rec;
      } else {
        assert renamed[n + i] == rec;
      }
    }
  }

  /** The records `melt_and_rename` keeps: each row's renamed `EndCap` and
      `AnnualGeneration` records, minus exactly the discharge ones. */
  lemma MeltAndRenameRecords(t: Table, rename: map<string, string>, rec: LongRecord)
    requires WellFormed(t) && "EndCap" in t.columns && "AnnualGeneration" in t.columns
    ensures rec in MeltAndRename(t, rename).value <==>
              !IsDischarge(rec) &&
              exists i :: 0 <= i < |t.rows| &&
                (rec == Renamed(t.rows[i], "EndCap", rename) || rec == Renamed(t.rows[i], "AnnualGeneration", rename))
  {
    MeltTwo(t, "EndCap", "AnnualGeneration");
    RenamedMeltRecords(t, rename, rec);
  }

  /** `electricity_analysis` / `h2_analysis`: wrangle the capacity table,
      transpose the power table, inner-join them on `Resource`, classify and
      group, then melt, rename and filter. File reading is replaced by the
      two tables. */
  function Analysis(capacity: Table, power: PowerTable, binType: string, rename: map<string, string>): (r: Result<seq<LongRecord>>)
    requires WellFormed(capacity) && PowerWellFormed(power)
  {
    var cap := CapacityDfWrangler(capacity);
    var generation :- AnnualSums(power);
    var merged := MergeOnResource(generation, cap);
    var grouped :- Identify(merged, Categorizer(binType));
    MeltAndRename(GroupedTable(merged.columns, grouped), rename)
  }

  /** `electricity_analysis`: elec bins, capacity to `electricity_capacity_MW`,
      generation to `electricity_generation_MWh`. */
  const ElecRename: map<string, string> :=
    map["EndCap" := "electricity_capacity_MW", "AnnualGeneration" := "electricity_generation_MWh"]

  /** `h2_analysis`: h2 bins, capacity to `h2_capacity_tonne_hr`, generation
      to `h2_generation_tonne`. */
  const H2Rename: map<string, string> :=
    map["EndCap" := "h2_capacity_tonne_hr", "AnnualGeneration" := "h2_generation_tonne"]

  function ElectricityAnalysis(capacity: Table, power: PowerTable): Result<seq<LongRecord>>
    requires WellFormed(capacity) && PowerWellFormed(power)
  {
    Analysis(capacity, power, "elec", ElecRename)
  }

  function H2Analysis(capacity: Table, power: PowerTable): Result<seq<LongRecord>>
    requires WellFormed(capacity) && PowerWellFormed(power)
  {
    Analysis(capacity, power, "h2", H2Rename)
  }

  /** With a valid bin type the pipeline fails exactly when the power table
      has no `AnnualSum` row or the capacity table no `EndCap` column, in
      that order. */
  lemma AnalysisFailures(capacity: Table, power: PowerTable, binType: string, rename: map<string, string>)
    requires WellFormed(capacity) && PowerWellFormed(power) && BinsFor(binType).Some?
    ensures Analysis(capacity, power, binType, rename).Err? <==>
              (forall i :: 0 <= i < |power.rows| ==> power.rows[i].series != "AnnualSum") || "EndCap" !in capacity.columns
    ensures (forall i :: 0 <= i < |power.rows| ==> power.rows[i].series != "AnnualSum") ==>
              Analysis(capacity, power, binType, rename) == Err(MissingColumn("AnnualSum"))
  {
    var cap := CapacityDfWrangler(capacity);
    assert "EndCap" in cap.columns <==> "EndCap" in capacity.columns by {
      NoLongerPatternInShorter("EndCap", "AnnualGeneration");
    }
    if AnnualSums(power).Ok? {
      var merged := MergeOnResource(AnnualSums(power).value, cap);
      ClassifiedGrouping(merged, BinsFor(binType), SuffixWhenNamed, "", "");
    }
  }

  /** A type name without a 'g' or 'G' never contains "generation". */
  lemma NoGeneration(m: string)
    requires 'g' !in m && 'G' !in m
    ensures !Contains(Lower(m), "generation")
  {
    LowerMissingLetter(m, 'g');
    MissingCharRulesOut(Lower(m), "generation", 0);
  }

  lemma GenerationHasNoUpper()
    ensures !HasUpper("generation")
  {
    var p := "generation";
    forall i | 0 <= i < |p| ensures !IsUpper(p[i]) { }
  }

  /** The capacity type of each rename lacks "generation"; its generation
      type contains it. */
  lemma ElecCapacityType()
    ensures !Contains(Lower(ElecRename["EndCap"]), "generation")
  {
    var c := ElecRename["EndCap"];
    assert c == "electricity_capacity_MW";
    assert 'g' !in c && 'G' !in c;
    NoGeneration(c);
  }

  lemma H2CapacityType()
    ensures !Contains(Lower(H2Rename["EndCap"]), "generation")
  {
    var c := H2Rename["EndCap"];
    assert c == "h2_capacity_tonne_hr";
    assert 'g' !in c && 'G' !in c;
    NoGeneration(c);
  }

  lemma ElecGenerationType()
    ensures Contains(Lower(ElecRename["AnnualGeneration"]), "generation")
  {
    GenerationHasNoUpper();
    var g := ElecRename["AnnualGeneration"];
    assert g == "electricity_generation_MWh";
    assert g[12..22] == "generation";
    LowerKeepsPattern(g, "generation", 12);
  }

  lemma H2GenerationType()
    ensures Contains(Lower(H2Rename["AnnualGeneration"]), "generation")
  {
    GenerationHasNoUpper();
    var g := H2Rename["AnnualGeneration"];
    assert g == "h2_generation_tonne";
    assert g[3..13] == "generation";
    LowerKeepsPattern(g, "generation", 3);
  }

  /** When the capacity type lacks "generation" and the generation type
      contains it, every capacity record survives the filter and a generation
      record survives exactly when its category names neither storage nor
      battery. */
  lemma {:induction false} DischargeFilterKeeps(t: Table, rename: map<string, string>, i: nat)
    requires WellFormed(t) && "EndCap" in t.columns && "AnnualGeneration" in t.columns && i < |t.rows|
    requires "EndCap" in rename && !Contains(Lower(rename["EndCap"]), "generation")
    requires "AnnualGeneration" in rename && Contains(Lower(rename["AnnualGeneration"]), "generation")
    ensures Renamed(t.rows[i], "EndCap", rename) in MeltAndRename(t, rename).value
    ensures Renamed(t.rows[i], "AnnualGeneration", rename) in MeltAndRename(t, rename).value <==>
              !(Contains(Lower(t.rows[i].resource), "storage") || Contains(Lower(t.rows[i].resource), "battery"))
  {
    var cap := Renamed(t.rows[i], "EndCap", rename);
    var gen := Renamed(t.rows[i], "AnnualGeneration", rename);
    assert cap.metric == rename["EndCap"] && gen.metric == rename["AnnualGeneration"];
    assert !IsDischarge(cap);
    assert IsDischarge(gen) <==> Contains(Lower(gen.resource), "storage") || Contains(Lower(gen.resource), "battery");
    MeltAndRenameRecords(t, rename, cap);
    MeltAndRenameRecords(t, rename, gen);
  }

  /** The filter on the types `electricity_analysis` and `h2_analysis` use. */
  lemma AnalysisTypesFilter(t: Table, i: nat)
    requires WellFormed(t) && "EndCap" in t.columns && "AnnualGeneration" in t.columns && i < |t.rows|
    ensures Renamed(t.rows[i], "EndCap", ElecRename) in MeltAndRename(t, ElecRename).value
    ensures Renamed(t.rows[i], "EndCap", H2Rename) in MeltAndRename(t, H2Rename).value
    ensures Renamed(t.rows[i], "AnnualGeneration", ElecRename) in MeltAndRename(t, ElecRename).value <==>
              !(Contains(Lower(t.rows[i].resource), "storage") || Contains(Lower(t.rows[i].resource), "battery"))
    ensures Renamed(t.rows[i], "AnnualGeneration", H2Rename) in MeltAndRename(t, H2Rename).value <==>
              !(Contains(Lower(t.rows[i].resource), "storage") || Contains(Lower(t.rows[i].resource), "battery"))
  {
    ElecCapacityType();
    ElecGenerationType();
    DischargeFilterKeeps(t, ElecRename, i);
    H2CapacityType();
    H2GenerationType();
    DischargeFilterKeeps(t, H2Rename, i);
  }

  lemma NoLongerPatternInShorter(s: string, p: string)
    requires |s| < |p|
    ensures !Contains(s, p)
  {
    if Contains(s, p) {
      var i := ContainsWitness(s, p);
    }
  }
}
