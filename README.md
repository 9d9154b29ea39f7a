# Resource classification and long-table wrangling, in Dafny

This project models the data-wrangling core of a set of capacity-expansion
result visualisation scripts. A run directory holds several `Results*`
folders. The scripts pick the latest folder and read its capacity, power and
cost tables. Each resource name (for example
`PJM_West_naturalgas_ccccsavgcf_conservative`) is classified into a
technology category, and the numeric columns are summed per category. The
results are reshaped into long `(Zone, Resource, Type, Value)` records for
plotting.

The model has four variants, one per script:

- the source-tree wrangling script,
  `src/viz_tools/src/data_wrangling/data_wrangling_long.py`: module
  `SrcWranglingLong`;
- the `viz_tools` wrangling script,
  `viz_tools/src/data_wrangling/data_wrangling_long.py`: module
  `VizWranglingLong`;
- its first version, `viz_tools/src/data_wrangling_long_v1.py`: module
  `VizWranglingLongV1`;
- the consolidated plotting notebook, `consolidated_result_plots.py`: module
  `ConsolidatedPlots`.

They share these modules:

- `Outcomes`: `Option`, `Result`, the error kinds, and `MapResults`, which
  models `Series.apply` of a function that may raise.
- `Text`: Python's ASCII `str.lower`, `p in s`, `str.startswith`,
  `split("_")[-1]`, `int(...)` and `str(...)`.
- `Search`: first-match search in declaration order.
- `Grouping`: `groupby(...).sum()` and what it conserves.
- `Tables`: tables, column selection, `pd.melt`, and the in-place frame
  whose `Resource` column the classifier overwrites.
- `BinMatching`: the bin-table classifier (lower-case the name, the `"h2"`
  override, then the nested first-match loop over bins and patterns). It is
  parameterised by the bin table and by the behaviour of the carbon-capture
  branch.
- `ResultsFolder`: `find_latest_result_folder`, over a directory listing
  given as a parameter.

Each source function becomes the matching Dafny form:

- A loop that builds a value becomes a method with invariants, proved equal
  to a specification function. Examples are the classifier loop, the
  `Series.apply` pass, and the consolidated notebook's row/zone/category
  loops.
- A column assigned in place becomes a class whose method modifies it: the
  `Resource` overwrite, the `Tech_Type` column and the `Cap_difference`
  column.
- Pandas expression pipelines become functions.

An unknown `bin_type` in `categorize_energy_type` builds `TypeError("bin_type invalid")`
without raising it (src/viz_tools/src/data_wrangling/data_wrangling_long.py, line 114).
The loop that follows then reads an unbound `cat_bins`. The model reports this as
`UnboundBins`, after the early return of `"H2"` for a name containing "h2".

## Model

| member | source | states |
|---|---|---|
| Outcomes.MapResults | src/viz_tools/src/data_wrangling/data_wrangling_long.py:139 | `Series.apply` of a raising function: succeeds iff every element succeeds, then gives one result per element in order; otherwise fails with the first failing element's error |
| Text.Lower | src/viz_tools/src/data_wrangling/data_wrangling_long.py:103 | `str.lower`: same length, every character lower-cased (ASCII) |
| Text.LowerHasNoUpper | viz_tools/src/data_wrangling_long_v1.py:92 | a lower-cased name holds no upper-case letter |
| Text.UpperPatternNeverInLowered | viz_tools/src/data_wrangling_long_v1.py:92-102 | a pattern with an upper-case letter never occurs in a lower-cased name |
| Text.ContainsTransitive | viz_tools/src/data_wrangling/data_wrangling_long.py:127 | a name containing a pattern contains every substring of that pattern |
| Text.ParseInt | viz_tools/src/data_wrangling/data_wrangling_long.py:52 | `int(t)` succeeds exactly on an optional sign followed by one or more digits |
| Text.ParseIntPadded | viz_tools/src/data_wrangling/data_wrangling_long.py:52 | `int(t)` of an optional sign, any run of leading zeros and the digits of `n` is `n` with that sign |
| Text.IntToStringRoundTrip | viz_tools/src/data_wrangling/data_wrangling_long.py:52-58 | `int(str(n)) == n` for every integer |
| Text.LastSegment | viz_tools/src/data_wrangling/data_wrangling_long.py:52 | `split("_")[-1]`: a suffix of the string with no underscore, preceded by an underscore unless it is the whole string |
| Search.FirstWhere | src/viz_tools/src/data_wrangling/data_wrangling_long.py:118-129 | the index of the first element satisfying the test, or none exactly when no element does |
| BinMatching.ScanBins | src/viz_tools/src/data_wrangling/data_wrangling_long.py:118-132 | the nested bin/pattern loop with early return equals the first-match specification `Scan` |
| BinMatching.ScanFirstMatch | viz_tools/src/data_wrangling/data_wrangling_long.py:124-138 | the first matching bin in declaration order decides the result |
| BinMatching.EarlierBinWins | viz_tools/src/data_wrangling/data_wrangling_long.py:124-135 | when an earlier bin matches, no later bin decides the result |
| BinMatching.Classify | src/viz_tools/src/data_wrangling/data_wrangling_long.py:101-132 | a name containing "h2" (after lower-casing) gives "H2"; the call fails exactly when there is no "h2" and no bin table is bound, with `UnboundBins` |
| BinMatching.CcsSuffixOnlyWhenNamed | src/viz_tools/src/data_wrangling/data_wrangling_long.py:125-129 | a matched bin yields its key, or the key plus `_ccs` exactly when the branch is live and the name contains both the key and "ccs" |
| BinMatching.ScanResultShape | viz_tools/src/data_wrangling/data_wrangling_long.py:124-138 | every scan result is the name itself (no bin matched), or the key of a matching bin, possibly with `_ccs` |
| BinMatching.ClassifyResultShape | src/viz_tools/src/data_wrangling/data_wrangling_long.py:101-132 | every classification is "H2", the lower-cased name when no bin matches, or the key (possibly with `_ccs`) of a matching bin |
| BinMatching.ClassifyByBin | viz_tools/src/data_wrangling_long_v1.py:99-110 | without "h2", the first matching bin gives the classification |
| BinMatching.ClassifyNoMatch | viz_tools/src/data_wrangling_long_v1.py:113 | without "h2" and with no matching bin, the lower-cased name is returned |
| BinMatching.ShadowedBinNeverDecides | viz_tools/src/data_wrangling/data_wrangling_long.py:85-86 | a bin all of whose patterns contain a pattern of an earlier bin never decides the scan |
| BinMatching.ShadowedKeyNeverReturned | viz_tools/src/data_wrangling_long_v1.py:77-78 | the key of such a shadowed bin, when it holds an upper-case letter, is never a classification |
| BinMatching.UpperCasePatternNeverMatches | viz_tools/src/data_wrangling_long_v1.py:77 | a pattern written with an upper-case letter never matches |
| Grouping.GroupSum | src/viz_tools/src/data_wrangling/data_wrangling_long.py:143 | `groupby(keys).sum()`: one group per distinct key of the rows, keys unique, every group holding all numeric columns |
| Grouping.AddIntoKeys | src/viz_tools/src/data_wrangling/data_wrangling_long.py:143 | folding one row into the groups adds its key to the group keys and keeps keys unique |
| Grouping.GroupSumConserves | viz_tools/src/data_wrangling/data_wrangling_long.py:149 | for any selection of keys, the groups' sum of a column equals the rows' sum of it |
| Grouping.SumGroupsOfOneKey | viz_tools/src/data_wrangling_long_v1.py:124 | a group's value is the only contribution of its key among the groups |
| Grouping.GroupValue | viz_tools/src/data_wrangling_long_v1.py:124 | each group's sum of a column is the sum over the input rows with its key |
| Tables.DropTotal | viz_tools/src/data_wrangling/data_wrangling_long.py:276 | `df[df['Resource'] != 'Total']`: keeps all columns and exactly the rows not named "Total"; its rows are the order-preserving filter `DropRowsNamed` |
| Tables.DropTotalCount | viz_tools/src/data_wrangling/data_wrangling_long.py:276 | every row not named "Total" is kept as often as it occurs, and no "Total" row is kept |
| Tables.DropRowsNamedConcat | viz_tools/src/data_wrangling/data_wrangling_long.py:276 | the row filter distributes over concatenation, so kept rows stay in input order |
| Tables.DropRowsNamedCount | viz_tools/src/data_wrangling/data_wrangling_long.py:276 | the row filter keeps each non-matching row exactly as often as it occurs and no matching row |
| Tables.DropRowsNamedZoneTotal | viz_tools/src/data_wrangling/data_wrangling_long.py:276 | after the row filter each zone's column total is the input's minus that zone's dropped rows |
| Tables.DropTotalZoneTotal | viz_tools/src/data_wrangling/data_wrangling_long.py:276 | after dropping "Total" each zone's column total is the input's minus that zone's "Total" rows |
| Tables.DropColumnsRestrictRows | src/viz_tools/src/data_wrangling/data_wrangling_long.py:155-156 | dropping columns narrows every row, in order, to the kept columns |
| Tables.DropRowsNamedRestrict | src/viz_tools/src/data_wrangling/data_wrangling_long.py:155-157 | dropping columns and dropping rows by name commute |
| Tables.IdentifyGroupValue | src/viz_tools/src/data_wrangling/data_wrangling_long.py:139-145 | each `(Zone, category)` group's value in a column is the sum of that column over exactly the input rows of that zone classified as that category |
| Tables.GroupedTableZoneTotal | src/viz_tools/src/data_wrangling/data_wrangling_long.py:143 | `reset_index()` keeps every zone's total |
| Tables.DropColumnsContaining | src/viz_tools/src/data_wrangling/data_wrangling_long.py:155-156 | keeps exactly the columns whose name lacks the pattern, and every row |
| Tables.Identify | src/viz_tools/src/data_wrangling/data_wrangling_long.py:136-147 | classification plus `(Zone, Resource)` grouping fails exactly when classifying some row fails |
| Tables.IdentifyConservesZoneTotals | src/viz_tools/src/data_wrangling/data_wrangling_long.py:139-145 | grouping keeps every zone's total of every numeric column |
| Tables.IdentifyKeys | viz_tools/src/data_wrangling/data_wrangling_long.py:145-151 | one group per distinct `(Zone, category)` of the classified input rows |
| Tables.ClassifiedGrouping | viz_tools/src/data_wrangling/data_wrangling_long.py:142-153 | with a bin table, grouping fails exactly when the table is unbound and some row lacks "h2"; otherwise keys are unique, are the rows' `(Zone, category)` pairs, and zone totals are kept |
| Tables.Select | viz_tools/src/data_wrangling/data_wrangling_long.py:282-283 | `df[vars]` succeeds iff every column exists, otherwise reports the first missing one; the result has exactly those columns and every row |
| Tables.Melt | src/viz_tools/src/data_wrangling/data_wrangling_long.py:184-186 | `pd.melt`: succeeds iff every value column exists, otherwise fails naming a missing one |
| Tables.MeltTwo | src/viz_tools/src/data_wrangling/data_wrangling_long.py:184-186 | melting two columns gives the first column's records then the second's |
| Tables.RenameTypes | src/viz_tools/src/data_wrangling/data_wrangling_long.py:189 | `replace(rename)` on `Type`: same records, a type equal to a key replaced by its value |
| Tables.AnnualSums | src/viz_tools/src/data_wrangling/data_wrangling_long.py:160-175 | transposing the power table and keeping `AnnualSum` gives one `(resource, annual sum)` per resource column, from the first `AnnualSum` row; without one it fails with a missing column |
| Tables.Frame.Classify | src/viz_tools/src/data_wrangling/data_wrangling_long.py:139 | the `apply` loop over the frame's rows yields `MapResults` of the classifier; on success the `Resource` column is overwritten with the categories, on failure the frame is unchanged |
| Tables.Frame.IdentifyTechType | viz_tools/src/data_wrangling/data_wrangling_long.py:142-153 | returns the grouping of the frame as it was, and leaves the frame's rows relabelled |
| ResultsFolder.ResultFolders | consolidated_result_plots.py:237 | keeps exactly the entries starting with "Results" |
| ResultsFolder.FindLatestResultFolder | viz_tools/src/data_wrangling/data_wrangling_long.py:47-58 | fails with "no results" exactly when no entry starts with "Results"; other failures come from a non-numeric suffix (the same function is copied at viz_tools/src/data_wrangling_long_v1.py lines 39-50 and consolidated_result_plots.py lines 236-247) |
| ResultsFolder.LatestFolderIsMaximum | consolidated_result_plots.py:241-247 | a successful choice is "Results" for a largest suffix of 0, else `Results_<max>`, where max is at least every folder's suffix and is one of them |
| ResultsFolder.LatestNameRoundTrip | viz_tools/src/data_wrangling/data_wrangling_long.py:52-58 | the rebuilt name is a results folder whose suffix number is the maximum again |
| ResultsFolder.FindLatestResultFolderWithExample | src/viz_tools/src/data_wrangling/data_wrangling_long.py:63-78 | `Results_Example` wins whenever it is listed; otherwise the plain choice applies |
| ResultsFolder.ExampleFolderHasNoNumber | src/viz_tools/src/data_wrangling/data_wrangling_long.py:66-72 | the suffix of `Results_Example` is not a number |
| ResultsFolder.ExampleFolderBreaksPlainChoice | viz_tools/src/data_wrangling/data_wrangling_long.py:52 | without the override, a listed `Results_Example` makes the choice fail with a parse error |
| ResultsFolder.RebuiltNameMayBeAbsent | viz_tools/src/data_wrangling/data_wrangling_long.py:52-56 | for the listing `["Results_0"]` the choice is "Results", a folder that is not listed |
| ResultsFolder.FindLatestExistingResultFolder | viz_tools/src/data_wrangling/data_wrangling_long.py:47-58 | corrected choice: a listed results folder whose suffix is at least every other folder's; fails exactly when the original does |
| ResultsFolder.ExistingFolderHasLatestNumber | viz_tools/src/data_wrangling/data_wrangling_long.py:52-58 | the corrected choice has the same suffix number as the name the original rebuilds |
| SrcWranglingLong.CategorizeEnergyType | src/viz_tools/src/data_wrangling/data_wrangling_long.py:101-132 | the classifier as written, with `elec_bins`/`h2_bins` chosen by `bin_type`, equals `Classify` with the carbon-capture suffix rule |
| SrcWranglingLong.ElecH2BinNeverMatches | src/viz_tools/src/data_wrangling/data_wrangling_long.py:26 | the `'H2'` bin of `elec_bins` never matches a lower-cased name |
| SrcWranglingLong.IdentifyTechType | src/viz_tools/src/data_wrangling/data_wrangling_long.py:136-147 | returns the grouping of the frame as it was, overwriting `Resource` with the categories |
| SrcWranglingLong.CapacityDfWrangler | src/viz_tools/src/data_wrangling/data_wrangling_long.py:152-157 | keeps exactly the columns without "AnnualGeneration" in their name; the rows are the input rows not named "Total", in order and with their multiplicity, each narrowed to the kept columns |
| SrcWranglingLong.MergeOnResource | src/viz_tools/src/data_wrangling/data_wrangling_long.py:207 | the inner join on `Resource` adds `AnnualGeneration` to the capacity columns |
| SrcWranglingLong.MergeRowOrigin | src/viz_tools/src/data_wrangling/data_wrangling_long.py:207 | every joined row is built from a power entry and a capacity row with the same resource |
| SrcWranglingLong.MergeRowPresent | src/viz_tools/src/data_wrangling/data_wrangling_long.py:207 | every matching pair of a power entry and a capacity row appears in the join |
| SrcWranglingLong.JoinKeepsSharedResources | src/viz_tools/src/data_wrangling/data_wrangling_long.py:201-207 | a joined resource is in both tables, and is not "Total" |
| SrcWranglingLong.DropDischarge | src/viz_tools/src/data_wrangling/data_wrangling_long.py:193-194 | keeps exactly the records that are not storage/battery generation |
| SrcWranglingLong.DropDischargeConcat | src/viz_tools/src/data_wrangling/data_wrangling_long.py:193-194 | the discharge filter distributes over concatenation, so kept records stay in input order |
| SrcWranglingLong.DropDischargeCount | src/viz_tools/src/data_wrangling/data_wrangling_long.py:193-194 | each record that is not discharge is kept exactly as often as it occurs; discharge records not at all |
| SrcWranglingLong.MeltAndRename | src/viz_tools/src/data_wrangling/data_wrangling_long.py:178-196 | fails exactly when `EndCap` or `AnnualGeneration` is missing, naming `EndCap` first |
| SrcWranglingLong.RenamedMeltRecords | src/viz_tools/src/data_wrangling/data_wrangling_long.py:184-189 | before filtering, the records are exactly each row's renamed `EndCap` and `AnnualGeneration` records |
| SrcWranglingLong.MeltAndRenameRecords | src/viz_tools/src/data_wrangling/data_wrangling_long.py:184-196 | a record is kept iff it is a row's renamed record and is not storage/battery generation |
| SrcWranglingLong.AnalysisFailures | src/viz_tools/src/data_wrangling/data_wrangling_long.py:199-241 | with a valid bin type, the analysis fails exactly when the power table has no `AnnualSum` row (reported first) or the capacity table has no `EndCap` |
| SrcWranglingLong.NoGeneration | src/viz_tools/src/data_wrangling/data_wrangling_long.py:194 | a type with no 'g'/'G' never contains "generation" case-insensitively |
| SrcWranglingLong.ElecCapacityType | src/viz_tools/src/data_wrangling/data_wrangling_long.py:214-217 | `electricity_capacity_MW` does not contain "generation" |
| SrcWranglingLong.H2CapacityType | src/viz_tools/src/data_wrangling/data_wrangling_long.py:236-239 | `h2_capacity_tonne_hr` does not contain "generation" |
| SrcWranglingLong.ElecGenerationType | src/viz_tools/src/data_wrangling/data_wrangling_long.py:214-217 | `electricity_generation_MWh` contains "generation" |
| SrcWranglingLong.H2GenerationType | src/viz_tools/src/data_wrangling/data_wrangling_long.py:236-239 | `h2_generation_tonne` contains "generation" |
| SrcWranglingLong.DischargeFilterKeeps | src/viz_tools/src/data_wrangling/data_wrangling_long.py:189-194 | with such renames, every capacity record is kept, and a generation record is kept iff its resource is not storage/battery |
| SrcWranglingLong.AnalysisTypesFilter | src/viz_tools/src/data_wrangling/data_wrangling_long.py:190-194 | the same for the electricity and hydrogen renames: capacity always kept, storage/battery generation dropped |
| VizWranglingLong.CategorizeEnergyType | viz_tools/src/data_wrangling/data_wrangling_long.py:107-138 | the classifier as written equals `Classify` over this script's bin tables, with the carbon-capture suffix rule |
| VizWranglingLong.CcsPatternImpliesNaturalGas | viz_tools/src/data_wrangling/data_wrangling_long.py:85-86 | a name containing `natural_gas_ccs` contains `natural_gas` and `ccs` |
| VizWranglingLong.NaturalGasWithCcsNeverReturned | viz_tools/src/data_wrangling/data_wrangling_long.py:85-135 | `natural_gas_w_CCS` is never a classification: its bin is shadowed by `natural_gas` |
| VizWranglingLong.CcsNamesGetSuffix | viz_tools/src/data_wrangling/data_wrangling_long.py:131-132 | a name containing `natural_gas_ccs` (and not "h2") is classified `natural_gas_ccs` |
| VizWranglingLong.ElectrolyzerBinSpelling | viz_tools/src/data_wrangling/data_wrangling_long.py:102 | an electrolyser name is classified under the key as spelled, `elecrolyzer` (or `elecrolyzer_ccs`) |
| VizWranglingLong.IdentifyTechType | viz_tools/src/data_wrangling/data_wrangling_long.py:142-153 | returns the grouping of the frame as it was, overwriting `Resource` with the categories |
| VizWranglingLong.DoubleMelt | viz_tools/src/data_wrangling/data_wrangling_long.py:286-311 | four records per row: first melt `EndCap` then `AnnualGeneration`, second melt the reverse, each renamed by its own map |
| VizWranglingLong.AnalysisFailures | viz_tools/src/data_wrangling/data_wrangling_long.py:273-283 | with a valid bin type the analysis succeeds iff both `EndCap` and `AnnualGeneration` exist, naming `EndCap` first when missing |
| VizWranglingLong.DoubleMeltRepeats | viz_tools/src/data_wrangling/data_wrangling_long.py:286-311 | with one renaming, the second melt repeats the first with its halves swapped, so the output holds every record twice |
| VizWranglingLong.DoubleMeltRelabels | viz_tools/src/data_wrangling/data_wrangling_long.py:331-356 | with the two hydrogen renamings, the second melt carries the first's values under `h2capacity_MW`/`h2_generation_MWh` |
| VizWranglingLong.DoubleMeltKeys | viz_tools/src/data_wrangling/data_wrangling_long.py:286-302 | every record carries the zone and resource of some row |
| VizWranglingLong.ElectricityAnalysisRepeats | viz_tools/src/data_wrangling/data_wrangling_long.py:273-314 | four records per group; the last quarter equals the first, the third the second, and both halves hold the same records |
| VizWranglingLong.H2AnalysisLabels | viz_tools/src/data_wrangling/data_wrangling_long.py:318-359 | the same values carry `h2_capacity_tonne_hr`/`h2_generation_tonne` in the first melt and `h2capacity_MW`/`h2_generation_MWh` in the second |
| VizWranglingLong.AnalysisKeysFromNonTotalRows | viz_tools/src/data_wrangling/data_wrangling_long.py:276-278 | every record's `(Zone, Resource)` is the zone and category of an input row other than "Total" |
| VizWranglingLong.GroupedZoneTotal | viz_tools/src/data_wrangling/data_wrangling_long.py:276-278 | each zone's column total in the grouped table is the input's total minus that zone's "Total" rows |
| VizWranglingLongV1.CategorizeEnergyType | viz_tools/src/data_wrangling_long_v1.py:90-113 | the classifier as written never fails, and equals `Classify` over `energy_bins` with a carbon-capture branch that never fires |
| VizWranglingLongV1.UpperCaseGasPatternsNeverMatch | viz_tools/src/data_wrangling_long_v1.py:77-92 | the patterns `OCGT` and `CCGT` never occur in the lower-cased name |
| VizWranglingLongV1.NoCcsSuffix | viz_tools/src/data_wrangling_long_v1.py:106-110 | the carbon-capture test compares a key with tuples and never holds, so the first matching bin's key is returned as is |
| VizWranglingLongV1.NaturalGasWithCcsNeverReturned | viz_tools/src/data_wrangling_long_v1.py:76-110 | `natural_gas_w_CCS` is never a classification |
| VizWranglingLongV1.IdentifyTechType | viz_tools/src/data_wrangling_long_v1.py:117-128 | returns the grouping of the frame as it was, overwriting `Resource` with the categories |
| VizWranglingLongV1.IdentifyGroups | viz_tools/src/data_wrangling_long_v1.py:117-128 | grouping never fails, keys are unique and are exactly the rows' `(Zone, category)` pairs, and each zone's column totals are kept |
| VizWranglingLongV1.MeltCapacityAndResource | viz_tools/src/data_wrangling_long_v1.py:169-177 | one `electricity_capacity_MW` record per row holding its `EndCap`, then one `Resource` record per row holding its category |
| VizWranglingLongV1.GroupedZoneTotal | viz_tools/src/data_wrangling_long_v1.py:160-162 | each zone's column total in the grouped table is the input's total minus that zone's "Total" rows |
| VizWranglingLongV1.CapacityAnalysisFailures | viz_tools/src/data_wrangling_long_v1.py:157-167 | the analysis succeeds iff `EndCap` and `AnnualGeneration` exist, naming `EndCap` first |
| VizWranglingLongV1.CapacityAnalysisRecords | viz_tools/src/data_wrangling_long_v1.py:162-177 | each group gives its summed `EndCap` record, then a record carrying its category text |
| VizWranglingLongV1.CapacityAnalysisDropsTotal | viz_tools/src/data_wrangling_long_v1.py:160-162 | every record's `(Zone, Resource)` comes from an input row other than "Total" |
| ConsolidatedPlots.After | consolidated_result_plots.py:208 | `name[k:]`: the rest of the name, or "" once `k` passes its end |
| ConsolidatedPlots.StripZoneNoZone | consolidated_result_plots.py:205-210 | a name that no zone prefixes is kept as it is |
| ConsolidatedPlots.StripZoneFirst | consolidated_result_plots.py:205-210 | the first zone in list order that prefixes the name is removed, with one separator character |
| ConsolidatedPlots.MapPrefixNoKey | consolidated_result_plots.py:212-217 | a cleaned name that no key prefixes maps to itself |
| ConsolidatedPlots.MapPrefixFirst | consolidated_result_plots.py:212-217 | the first key in insertion order that prefixes the cleaned name decides its category |
| ConsolidatedPlots.TechTypeOf | consolidated_result_plots.py:204-219 | one row's type fails exactly when the zone list or the category table is empty; an empty table leaves `result_string` unbound, otherwise an empty zone list leaves `cleaned_string` unbound |
| ConsolidatedPlots.IdentifyByPrefix | consolidated_result_plots.py:202-225 | fails exactly when there are rows and a table is empty; otherwise every group holds all numeric columns |
| ConsolidatedPlots.TechFrame.IdentifyTechType | consolidated_result_plots.py:202-225 | the row loop, whose variables carry over between rows, returns `IdentifyByPrefix` of the frame, leaves its rows unchanged and assigns the `Tech_Type` list on success |
| ConsolidatedPlots.ZoneLoop | consolidated_result_plots.py:205-210 | with zones, `cleaned_string` ends as the zone-stripped name; without zones it keeps its earlier value |
| ConsolidatedPlots.CategoryLoop | consolidated_result_plots.py:212-217 | with keys, an unbound `cleaned_string` fails, otherwise `result_string` ends as the mapped name; without keys it keeps its earlier value |
| ConsolidatedPlots.IdentifyFails | consolidated_result_plots.py:204-219 | with rows and an empty table, the first row fails naming the unbound variable |
| ConsolidatedPlots.TypesOfAllRows | consolidated_result_plots.py:203-218 | the types found row by row are exactly the list `MapResults` yields |
| ConsolidatedPlots.TechTypesPerRow | consolidated_result_plots.py:203-220 | the `Tech_Type` list has one entry per row, in row order: the row's zone-stripped, mapped name |
| ConsolidatedPlots.IdentifyByPrefixGroups | consolidated_result_plots.py:220-223 | with both tables non-empty: success, unique keys, keys exactly the rows' types, every column's total kept |
| ConsolidatedPlots.IdentifyByPrefixGroupValue | consolidated_result_plots.py:220-223 | each technology type's group value in a column is the sum of that column over exactly the rows of that type |
| ConsolidatedPlots.NaturalGasWithCcsExample | consolidated_result_plots.py:33-74 | `PJM_West_naturalgas_ccccsavgcf_conservative` is classed `Natural_gas_with_CCS` |
| ConsolidatedPlots.HydrogenTurbineExample | consolidated_result_plots.py:29-84 | `CCGT-H2` has no zone prefix and is classed `H2` |
| ConsolidatedPlots.LargeSmrOrder | consolidated_result_plots.py:90-91 | names starting with `Large_SMR_wCCS_96pct` keep that type although `Large_SMR` also prefixes them; other `Large_SMR` names are `Large_SMR` |
| ConsolidatedPlots.CapacityAnalysisKeepsTotals | consolidated_result_plots.py:276-319 | with a non-empty category table, the capacity analysis (`capacity_w_H2G2p_analysis` with the generation table, `h2_capacity_analysis` with the hydrogen table) succeeds and keeps every column's total |
| ConsolidatedPlots.PowerAnalysisTotal | consolidated_result_plots.py:281-302 | fails exactly when there is no `AnnualSum` row; otherwise the grouped annual sums add up to that row over every resource column but the last |
| ConsolidatedPlots.WithCapDifference | consolidated_result_plots.py:309 | every group gains `Cap_difference == EndCap - StartCap` and keeps its other cells |
| ConsolidatedPlots.GenerationDifferenceValues | consolidated_result_plots.py:304-310 | succeeds iff classification succeeds and both capacity columns exist; every type's row then holds exactly `StartCap`, `EndCap` and their difference |
| ConsolidatedPlots.CapacityGroups.AddCapDifference | consolidated_result_plots.py:309 | the in-place column assignment adds `Cap_difference` to the columns and to every group |
| ConsolidatedPlots.GenerationDifferenceAnalysis | consolidated_result_plots.py:304-310 | classifying the frame, selecting and adding the difference in place returns exactly `GenerationDifference` of the frame as it was; the frame keeps its rows and columns and gains the `Tech_Type` column whenever classification succeeds |
| ConsolidatedPlots.GetTotal | consolidated_result_plots.py:323-325 | the `Total` of the first row whose `Costs` is the name; fails exactly when no row matches |

## Left out

- Reading and writing files is not modelled: `open_results_file`, `open_inputs_file`, `pd.read_csv`, `list_directories`, `latest_result_finder`, `os.chdir` and `os.makedirs`. A table read from disk is a parameter, and so is a directory listing.
- Plotting and rendering are not modelled: the bar-chart functions, the pivot-and-plot code, seaborn and matplotlib, and the y-axis helpers of the notebook. They are chart layout in floating point.
- The notebook's script cells (cost normalisation, percentage deltas) are not modelled; they are float arithmetic over loaded files.
- The twice-defined `capacity_w_H2G2p_analysis` of the `viz_tools` script is not modelled. It calls `identify_tech_type(df)` without its required `bin_type`, so it always raises.
- `identify_tech_type` with `aggregate=False` is not modelled; no caller uses it.
- Pandas sorts `groupby` keys. The model keeps groups in the order their keys first appear: the groups, keys and sums are the same, but the row order differs.
- Pandas also sums non-numeric columns in `groupby` (string concatenation) and coerces dtypes. The model sums only the numeric columns it is given.
- Numbers are exact reals; floating-point rounding of the sums is not modelled.
- `str.lower` is modelled on ASCII letters only.
- Text.ParseInt: `int(...)` is modelled on ASCII digits without surrounding whitespace or `_` separators; Python's `int` also accepts those and non-ASCII Unicode decimal digits, which the model rejects.
- A `KeyError` from selecting several missing columns is modelled as naming the first missing one.
- Tables.AnnualSums: the power table is modelled after its transposition, and only the first row named `AnnualSum` is taken; pandas would keep every duplicate-labelled `AnnualSum` column.
- VizWranglingLongV1.MeltCapacityAndResource: melting `Resource` as a value column while it is also an id column depends on the pandas version. The model follows the behaviour that emits the category text as the value.
- ConsolidatedPlots.CapacityAnalysisKeepsTotals: it requires a non-empty category table; the declared tables are non-empty.
- ConsolidatedPlots.GenerationDifferenceValues: it does not state which error is reported when classification fails; `IdentifyFails` and `IdentifyByPrefix` state it.

## Findings

| source | as written | input that shows it | evidently intended | confidence | as-written member | corrected member |
|---|---|---|---|---|---|---|
| viz_tools/src/data_wrangling/data_wrangling_long.py:52-58 (also the v1, source-tree and notebook copies) | the folder name is rebuilt from the largest suffix number, so a suffix of 0 gives "Results" even when no such folder exists | a listing holding only `Results_0` gives "Results", which is not listed | return the listed folder with the largest suffix | low; not executed | ResultsFolder.RebuiltNameMayBeAbsent | ResultsFolder.FindLatestExistingResultFolder |
