/** The record-level view of the pandas tables the pipeline reshapes: rows
    with a `Zone`, a `Resource` and numeric cells by column name; the frame
    object whose `Resource` column is overwritten in place; the per-row
    classification and `(Zone, Resource)` grouping; and `pd.melt` into long
    records. */
module Tables {

  import opened Outcomes
  import opened Text
  import opened Search
  import opened Grouping
  import opened BinMatching

  /** One row of a wide results table. */
  datatype Row = Row(zone: string, resource: string, metrics: Metrics)

  /** A wide results table: its numeric column names and its rows in order. */
  datatype Table = Table(columns: set<string>, rows: seq<Row>)

  /** Every row has a cell for every numeric column and for nothing else. */
  predicate WellFormed(t: Table)
  {
    forall i :: 0 <= i < |t.rows| ==> t.rows[i].metrics.Keys == t.columns
  }

  /** One record of a long-format table: `(Zone, Resource, Type, Value)`. */
  datatype LongRecord = LongRecord(zone: string, resource: string, metric: string, value: real)

  /** The `Resource` column. */
  function Resources(rows: seq<Row>): (r: seq<string>)
    ensures |r| == |rows|
    ensures forall i :: 0 <= i < |rows| ==> r[i] == rows[i].resource
  {
    seq(|rows|, i requires 0 <= i < |rows| => rows[i].resource)
  }

  /** `df[df['Resource'] != name]`: keeps, in order, exactly the rows whose
      resource is not `name`. */
  function DropRowsNamed(rows: seq<Row>, name: string): (r: seq<Row>)
    ensures |r| <= |rows|
  {
    if rows == [] then []
    else if rows[0].resource == name then DropRowsNamed(rows[1..], name)
    else [rows[0]] + DropRowsNamed(rows[1..], name)
  }

  lemma DropRowsNamedWellFormed(t: Table, name: string)
    requires WellFormed(t)
    ensures WellFormed(Table(t.columns, DropRowsNamed(t.rows, name)))
  {
    var r := DropRowsNamed(t.rows, name);
    DropRowsNamedMembers(t.rows, name);
    forall i | 0 <= i < |r| ensures r[i].metrics.Keys == t.columns {
      assert r[i] in t.rows;
    }
  }

  /** `df[df['Resource'] != 'Total']` on a whole table: the sentinel row of
      totals is dropped, every other row is kept. */
  function DropTotal(t: Table): (r: Table)
    requires WellFormed(t)
    ensures WellFormed(r) && r.columns == t.columns
    ensures forall row :: row in r.rows <==> row in t.rows && row.resource != "Total"
    ensures r.rows == DropRowsNamed(t.rows, "Total")
  {
    DropRowsNamedWellFormed(t, "Total");
    DropRowsNamedMembers(t.rows, "Total");
    Table(t.columns, DropRowsNamed(t.rows, "Total"))
  }

  /** `DropTotal` keeps every row not named "Total" as often as it occurs,
      and no "Total" row. */
  lemma DropTotalCount(t: Table, row: Row)
    requires WellFormed(t)
    ensures multiset(DropTotal(t).rows)[row] == if row.resource == "Total" then 0 else multiset(t.rows)[row]
  {
    DropRowsNamedCount(t.rows, "Total", row);
  }

  /** The row filter distributes over concatenation, so the kept rows stay in
      their input order. */
  lemma {:induction false} DropRowsNamedConcat(a: seq<Row>, b: seq<Row>, name: string)
    ensures DropRowsNamed(a + b, name) == DropRowsNamed(a, name) + DropRowsNamed(b, name)
  {
    if a == [] {
      assert a + b == b;
    } else {
      var ab := a + b;
      assert ab[0] == a[0] && ab[1..] == a[1..] + b;
      DropRowsNamedConcat(a[1..], b, name);
      var rest := DropRowsNamed(a[1..], name) + DropRowsNamed(b, name);
      if a[0].resource == name {
        calc {
          DropRowsNamed(ab, name);
          DropRowsNamed(ab[1..], name);
          rest;
          DropRowsNamed(a, name) + DropRowsNamed(b, name);
        }
      } else {
        calc {
          DropRowsNamed(ab, name);
          [a[0]] + DropRowsNamed(ab[1..], name);
          [a[0]] + rest;
          ([a[0]] + DropRowsNamed(a[1..], name)) + DropRowsNamed(b, name);
          DropRowsNamed(a, name) + DropRowsNamed(b, name);
        }
      }
    }
  }

  /** On a single row the filter keeps it exactly when its resource is not `name`. */
  lemma DropRowsNamedOne(row: Row, name: string)
    ensures DropRowsNamed([row], name) == if row.resource == name then [] else [row]
  {
    assert [row][1..] == [];
  }

  /** A row other than a `name` row is kept as often as it occurs; a `name`
      row not at all. */
  lemma {:induction false} DropRowsNamedCount(rows: seq<Row>, name: string, row: Row)
    ensures multiset(DropRowsNamed(rows, name))[row] == if row.resource == name then 0 else multiset(rows)[row]
  {
    if rows != [] {
      DropRowsNamedCount(rows[1..], name, row);
      assert rows == [rows[0]] + rows[1..];
    }
  }

  lemma DropRowsNamedCounts(rows: seq<Row>, name: string)
    ensures forall row :: multiset(DropRowsNamed(rows, name))[row] == if row.resource == name then 0 else multiset(rows)[row]
  {
    forall row {
      DropRowsNamedCount(rows, name, row);
    }
  }

  /** The filter keeps exactly the rows whose resource is not `name`. */
  lemma DropRowsNamedMembers(rows: seq<Row>, name: string)
    ensures forall row :: row in DropRowsNamed(rows, name) <==> row in rows && row.resource != name
  {
    DropRowsNamedCounts(rows, name);
  }

  /** The cells of `m` in the columns `cols`. */
  function Restrict(m: Metrics, cols: set<string>): (r: Metrics)
    requires cols <= m.Keys
    ensures r.Keys == cols
    ensures forall c :: c in cols ==> r[c] == m[c]
  {
    map c | c in cols :: m[c]
  }

  /** `df.drop(columns=[c for c in df.columns if pat in c])`: keeps exactly the
      columns whose name does not contain `pat`, and every row. */
  function DropColumnsContaining(t: Table, pat: string): (r: Table)
    requires WellFormed(t)
    ensures WellFormed(r)
    ensures forall c :: c in r.columns <==> c in t.columns && !Contains(c, pat)
    ensures |r.rows| == |t.rows|
    ensures forall i :: 0 <= i < |t.rows| ==>
              r.rows[i] == Row(t.rows[i].zone, t.rows[i].resource, Restrict(t.rows[i].metrics, r.columns))
  {
    var keep := set c | c in t.columns && !Contains(c, pat);
    Table(keep, seq(|t.rows|, i requires 0 <= i < |t.rows| =>
      Row(t.rows[i].zone, t.rows[i].resource, Restrict(t.rows[i].metrics, keep))))
  }

  /** A row with its cells narrowed to the columns `cols`. */
  function RestrictRow(row: Row, cols: set<string>): Row
  {
    Row(row.zone, row.resource, map c | c in cols && c in row.metrics :: row.metrics[c])
  }

  /** Every row, in order, narrowed to the columns `cols`. */
  function RestrictRows(rows: seq<Row>, cols: set<string>): (r: seq<Row>)
    ensures |r| == |rows|
    ensures forall i :: 0 <= i < |rows| ==> r[i] == RestrictRow(rows[i], cols)
  {
    if rows == [] then [] else [RestrictRow(rows[0], cols)] + RestrictRows(rows[1..], cols)
  }

  /** Dropping columns narrows every row to the kept columns, in order. */
  lemma DropColumnsRestrictRows(t: Table, pat: string)
    requires WellFormed(t)
    ensures DropColumnsContaining(t, pat).rows == RestrictRows(t.rows, DropColumnsContaining(t, pat).columns)
  {
    var d := DropColumnsContaining(t, pat);
    forall i | 0 <= i < |t.rows| ensures d.rows[i] == RestrictRow(t.rows[i], d.columns) {
      var m := t.rows[i].metrics;
      assert Restrict(m, d.columns) == map c | c in d.columns && c in m :: m[c];
    }
  }

  /** Narrowing the columns and dropping the `name` rows commute. */
  lemma {:induction false} DropRowsNamedRestrict(rows: seq<Row>, cols: set<string>, name: string)
    ensures DropRowsNamed(RestrictRows(rows, cols), name) == RestrictRows(DropRowsNamed(rows, name), cols)
  {
    if rows != [] {
      DropRowsNamedRestrict(rows[1..], cols, name);
      assert RestrictRows(rows, cols)[1..] == RestrictRows(rows[1..], cols);
    }
  }

  /** `df['Resource'] = cats`: overwrites the resource of each row. */
  function Relabel(rows: seq<Row>, cats: seq<string>): (r: seq<Row>)
    requires |cats| == |rows|
    ensures |r| == |rows|
    ensures forall i :: 0 <= i < |rows| ==> r[i] == rows[i].(resource := cats[i])
  {
    seq(|rows|, i requires 0 <= i < |rows| => rows[i].(resource := cats[i]))
  }

  lemma RelabelWellFormed(t: Table, cats: seq<string>)
    requires WellFormed(t) && |cats| == |t.rows|
    ensures WellFormed(Table(t.columns, Relabel(t.rows, cats)))
    ensures RowsWidth(Keyed(Relabel(t.rows, cats)), t.columns)
  {
  }

  /** The rows as `((Zone, Resource), numeric cells)` pairs for grouping. */
  function Keyed(rows: seq<Row>): (r: seq<((string, string), Metrics)>)
    ensures |r| == |rows|
    ensures forall i :: 0 <= i < |rows| ==> r[i] == ((rows[i].zone, rows[i].resource), rows[i].metrics)
  {
    seq(|rows|, i requires 0 <= i < |rows| => ((rows[i].zone, rows[i].resource), rows[i].metrics))
  }

  /** `identify_tech_type(df, ...)` with `aggregate=True`: classify every
      resource with `f`, then `groupby(['Zone', 'Resource']).sum()`. */
  function Identify(t: Table, f: string -> Result<string>): (r: Result<seq<Group<(string, string)>>>)
    requires WellFormed(t)
    ensures r.Err? <==> exists i :: 0 <= i < |t.rows| && f(t.rows[i].resource).Err?
    ensures r.Ok? ==> WellFormed(GroupedTable(t.columns, r.value))
  {
    match MapResults(f, Resources(t.rows))
    case Err(e) => Err(e)
    case Ok(cats) =>
      RelabelWellFormed(t, cats);
      var gs := GroupSum(Keyed(Relabel(t.rows, cats)), t.columns);
      GroupedTableWellFormed(t.columns, gs);
      Ok(gs)
  }

  /** Total of column `c` over the rows of zone `z`. */
  function ZoneTotal(rows: seq<Row>, z: string, c: string): real
    requires forall i :: 0 <= i < |rows| ==> c in rows[i].metrics
  {
    if rows == [] then 0.0
    else ZoneTotal(rows[..|rows| - 1], z, c) + (if rows[|rows| - 1].zone == z then rows[|rows| - 1].metrics[c] else 0.0)
  }

  /** Total of column `c` over the rows of zone `z` whose resource is `name`. */
  function NamedZoneTotal(rows: seq<Row>, name: string, z: string, c: string): real
    requires forall i :: 0 <= i < |rows| ==> c in rows[i].metrics
  {
    if rows == [] then 0.0
    else
      var last := rows[|rows| - 1];
      NamedZoneTotal(rows[..|rows| - 1], name, z, c) + (if last.zone == z && last.resource == name then last.metrics[c] else 0.0)
  }

  lemma {:induction false} ZoneTotalConcat(a: seq<Row>, b: seq<Row>, z: string, c: string)
    requires forall i :: 0 <= i < |a| ==> c in a[i].metrics
    requires forall i :: 0 <= i < |b| ==> c in b[i].metrics
    ensures ZoneTotal(a + b, z, c) == ZoneTotal(a, z, c) + ZoneTotal(b, z, c)
  {
    if b != [] {
      ZoneTotalConcat(a, b[..|b| - 1], z, c);
      assert (a + b)[..|a + b| - 1] == a + b[..|b| - 1];
    } else {
      assert a + b == a;
    }
  }

  /** Dropping the `name` rows lowers each zone's total by exactly that
      zone's `name` rows. */
  lemma {:induction false} DropRowsNamedZoneTotal(rows: seq<Row>, name: string, z: string, c: string)
    requires forall i :: 0 <= i < |rows| ==> c in rows[i].metrics
    ensures forall i :: 0 <= i < |DropRowsNamed(rows, name)| ==> c in DropRowsNamed(rows, name)[i].metrics
    ensures ZoneTotal(DropRowsNamed(rows, name), z, c) == ZoneTotal(rows, z, c) - NamedZoneTotal(rows, name, z, c)
  {
    var kept := DropRowsNamed(rows, name);
    DropRowsNamedMembers(rows, name);
    forall i | 0 <= i < |kept| ensures c in kept[i].metrics {
      assert kept[i] in rows;
    }
    if rows != [] {
      var init, last := rows[..|rows| - 1], rows[|rows| - 1];
      assert rows == init + [last];
      DropRowsNamedZoneTotal(init, name, z, c);
      DropRowsNamedConcat(init, [last], name);
      DropRowsNamedOne(last, name);
      ZoneTotalConcat(DropRowsNamed(init, name), DropRowsNamed([last], name), z, c);
      assert [last][..0] == [];
    }
  }

  /** After `DropTotal` each zone's total of a column is the input's total
      minus that zone's "Total" rows. */
  lemma DropTotalZoneTotal(t: Table, z: string, c: string)
    requires WellFormed(t) && c in t.columns
    ensures ZoneTotal(DropTotal(t).rows, z, c) == ZoneTotal(t.rows, z, c) - NamedZoneTotal(t.rows, "Total", z, c)
  {
    DropRowsNamedZoneTotal(t.rows, "Total", z, c);
  }

  /** Total of column `c` over the rows of zone `key.0` that `f` classifies
      as `key.1`. */
  function ClassTotal(rows: seq<Row>, f: string -> Result<string>, key: (string, string), c: string): real
    requires forall i :: 0 <= i < |rows| ==> c in rows[i].metrics
  {
    if rows == [] then 0.0
    else
      var last := rows[|rows| - 1];
      ClassTotal(rows[..|rows| - 1], f, key, c) + (if last.zone == key.0 && f(last.resource) == Ok(key.1) then last.metrics[c] else 0.0)
  }

  lemma {:induction false} RelabelClassTotal(rows: seq<Row>, cats: seq<string>, f: string -> Result<string>, key: (string, string), c: string)
    requires |cats| == |rows| && forall i :: 0 <= i < |rows| ==> c in rows[i].metrics
    requires forall i :: 0 <= i < |rows| ==> f(rows[i].resource) == Ok(cats[i])
    ensures SumRows(Keyed(Relabel(rows, cats)), KeyIs(key), c) == ClassTotal(rows, f, key, c)
  {
    if rows != [] {
      var n := |rows|;
      RelabelClassTotal(rows[..n - 1], cats[..n - 1], f, key, c);
      assert Keyed(Relabel(rows, cats))[..n - 1] == Keyed(Relabel(rows[..n - 1], cats[..n - 1]));
    }
  }

  /** Each group's value in a column is the sum of that column over exactly
      the input rows of the group's zone that `f` classifies as the group's
      category. */
  lemma IdentifyGroupValue(t: Table, f: string -> Result<string>, i: nat, c: string)
    requires WellFormed(t) && c in t.columns && Identify(t, f).Ok? && i < |Identify(t, f).value|
    ensures Identify(t, f).value[i].sums[c] == ClassTotal(t.rows, f, Identify(t, f).value[i].key, c)
  {
    var cats := MapResults(f, Resources(t.rows)).value;
    var keyed := Keyed(Relabel(t.rows, cats));
    RelabelWellFormed(t, cats);
    GroupValue(keyed, t.columns, i, c);
    forall j | 0 <= j < |t.rows| ensures f(t.rows[j].resource) == Ok(cats[j]) {
      assert Resources(t.rows)[j] == t.rows[j].resource;
    }
    RelabelClassTotal(t.rows, cats, f, Identify(t, f).value[i].key, c);
  }

  /** Total of column `c` over the groups of zone `z`. */
  function GroupZoneTotal(gs: seq<Group<(string, string)>>, z: string, c: string): real
    requires forall i :: 0 <= i < |gs| ==> c in gs[i].sums
  {
    SumGroups(gs, (key: (string, string)) => key.0 == z, c)
  }

  lemma {:induction false} RelabelKeepsZoneTotals(rows: seq<Row>, cats: seq<string>, z: string, c: string)
    requires |cats| == |rows| && forall i :: 0 <= i < |rows| ==> c in rows[i].metrics
    ensures SumRows(Keyed(Relabel(rows, cats)), (key: (string, string)) => key.0 == z, c) == ZoneTotal(rows, z, c)
  {
    if rows != [] {
      var n := |rows|;
      RelabelKeepsZoneTotals(rows[..n - 1], cats[..n - 1], z, c);
      assert Keyed(Relabel(rows, cats))[..n - 1] == Keyed(Relabel(rows[..n - 1], cats[..n - 1]));
    }
  }

  /** Grouping by `(Zone, category)` conserves each zone's total of every
      numeric column. */
  lemma IdentifyConservesZoneTotals(t: Table, f: string -> Result<string>, z: string, c: string)
    requires WellFormed(t) && c in t.columns && Identify(t, f).Ok?
    ensures GroupZoneTotal(Identify(t, f).value, z, c) == ZoneTotal(t.rows, z, c)
  {
    var cats := MapResults(f, Resources(t.rows)).value;
    var keyed := Keyed(Relabel(t.rows, cats));
    GroupSumConserves(keyed, t.columns, (key: (string, string)) => key.0 == z, c);
    RelabelKeepsZoneTotals(t.rows, cats, z, c);
  }

  /** Grouping yields exactly one group per distinct `(Zone, category)` of
      the classified input rows. */
  lemma IdentifyKeys(t: Table, f: string -> Result<string>)
    requires WellFormed(t) && Identify(t, f).Ok?
    ensures UniqueKeys(Identify(t, f).value)
    ensures forall key :: key in Keys(Identify(t, f).value) <==>
              exists i :: 0 <= i < |t.rows| && key == (t.rows[i].zone, f(t.rows[i].resource).value)
  {
    var cats := MapResults(f, Resources(t.rows)).value;
    var keyed := Keyed(Relabel(t.rows, cats));
    assert Keys(Identify(t, f).value) == RowKeys(keyed);
    forall key ensures key in RowKeys(keyed) <==>
        exists i :: 0 <= i < |t.rows| && key == (t.rows[i].zone, f(t.rows[i].resource).value)
    {
      if key in RowKeys(keyed) {
        var i :| 0 <= i < |keyed| && keyed[i].0 == key;
        assert f(Resources(t.rows)[i]) == Ok(cats[i]);
      }
      if exists i :: 0 <= i < |t.rows| && key == (t.rows[i].zone, f(t.rows[i].resource).value) {
        var i :| 0 <= i < |t.rows| && key == (t.rows[i].zone, f(t.rows[i].resource).value);
        assert f(Resources(t.rows)[i]) == Ok(cats[i]);
        assert keyed[i].0 == key;
      }
    }
  }

  /** Grouping the rows a bin-table classifier labels: it fails exactly when
      no table is bound and some resource lacks "h2"; otherwise it yields one
      group per distinct `(Zone, category)` and keeps every zone's total of
      every numeric column. */
  lemma ClassifiedGrouping(t: Table, table: Option<seq<Bin>>, rule: CcsRule, z: string, c: string)
    requires WellFormed(t)
    ensures Identify(t, Classifier(table, rule)).Err? <==>
              table.None? && exists i :: 0 <= i < |t.rows| && !Contains(Lower(t.rows[i].resource), "h2")
    ensures Identify(t, Classifier(table, rule)).Err? ==> Identify(t, Classifier(table, rule)).error == UnboundBins
    ensures Identify(t, Classifier(table, rule)).Ok? ==> UniqueKeys(Identify(t, Classifier(table, rule)).value)
    ensures Identify(t, Classifier(table, rule)).Ok? ==>
              forall key :: key in Keys(Identify(t, Classifier(table, rule)).value) <==>
                exists i :: 0 <= i < |t.rows| && key == (t.rows[i].zone, Classify(table, rule, t.rows[i].resource).value)
    ensures Identify(t, Classifier(table, rule)).Ok? && c in t.columns ==>
              GroupZoneTotal(Identify(t, Classifier(table, rule)).value, z, c) == ZoneTotal(t.rows, z, c)
  {
    var f := Classifier(table, rule);
    if Identify(t, f).Err? {
      var cats := MapResults(f, Resources(t.rows));
      var i :| 0 <= i < |t.rows| && f(Resources(t.rows)[i]) == Err(cats.error);
    } else {
      IdentifyKeys(t, f);
      if c in t.columns {
        IdentifyConservesZoneTotals(t, f, z, c);
      }
    }
  }

  /** The grouped result as a table again (`reset_index()`): one row per group. */
  function GroupedTable(columns: set<string>, gs: seq<Group<(string, string)>>): (r: Table)
    ensures |r.rows| == |gs|
    ensures forall i :: 0 <= i < |gs| ==> r.rows[i] == Row(gs[i].key.0, gs[i].key.1, gs[i].sums)
  {
    Table(columns, seq(|gs|, i requires 0 <= i < |gs| => Row(gs[i].key.0, gs[i].key.1, gs[i].sums)))
  }

  lemma GroupedTableWellFormed(columns: set<string>, gs: seq<Group<(string, string)>>)
    requires GroupsWidth(gs, columns)
    ensures WellFormed(GroupedTable(columns, gs))
  {
  }

  /** Turning the groups back into rows keeps every zone's total. */
  lemma {:induction false} GroupedTableZoneTotal(columns: set<string>, gs: seq<Group<(string, string)>>, z: string, c: string)
    requires forall i :: 0 <= i < |gs| ==> c in gs[i].sums
    ensures ZoneTotal(GroupedTable(columns, gs).rows, z, c) == GroupZoneTotal(gs, z, c)
  {
    if gs != [] {
      var rows := GroupedTable(columns, gs).rows;
      GroupedTableZoneTotal(columns, gs[1..], z, c);
      assert rows == [rows[0]] + GroupedTable(columns, gs[1..]).rows;
      ZoneTotalConcat([rows[0]], GroupedTable(columns, gs[1..]).rows, z, c);
      assert [rows[0]][..0] == [];
    }
  }

  /** `df[['Zone', *vars, 'Resource']]`: keeps only the numeric columns
      `vars`; the first one missing raises `KeyError`. */
  function Select(t: Table, vars: seq<string>): (r: Result<Table>)
    requires WellFormed(t)
    ensures r.Ok? <==> forall j :: 0 <= j < |vars| ==> vars[j] in t.columns
    ensures r.Err? ==> exists j :: 0 <= j < |vars| && vars[j] !in t.columns && r.error == MissingColumn(vars[j]) &&
                                   forall k :: 0 <= k < j ==> vars[k] in t.columns
    ensures r.Ok? ==> WellFormed(r.value) && forall c :: c in r.value.columns <==> c in vars
    ensures r.Ok? ==> |r.value.rows| == |t.rows|
    ensures r.Ok? ==> forall i :: 0 <= i < |t.rows| ==>
              r.value.rows[i] == Row(t.rows[i].zone, t.rows[i].resource, Restrict(t.rows[i].metrics, r.value.columns))
  {
    match FirstWhere(vars, v => v !in t.columns)
    case Some(j) => Err(MissingColumn(vars[j]))
    case None =>
      var cols := set v | v in vars;
      Ok(Table(cols, seq(|t.rows|, i requires 0 <= i < |t.rows| =>
        Row(t.rows[i].zone, t.rows[i].resource, Restrict(t.rows[i].metrics, cols)))))
  }

  /** The records `pd.melt` makes from one value column: one per row, in row order. */
  function MeltColumn(t: Table, v: string): (r: seq<LongRecord>)
    requires WellFormed(t) && v in t.columns
    ensures |r| == |t.rows|
    ensures forall i :: 0 <= i < |t.rows| ==>
              r[i] == LongRecord(t.rows[i].zone, t.rows[i].resource, v, t.rows[i].metrics[v])
  {
    seq(|t.rows|, i requires 0 <= i < |t.rows| =>
      LongRecord(t.rows[i].zone, t.rows[i].resource, v, t.rows[i].metrics[v]))
  }

  /** `pd.melt(df, id_vars=['Zone', 'Resource'], value_vars=vars, var_name='Type',
      value_name='Value')`: all records of the first value column, then all of
      the second, and so on; a missing column raises `KeyError`. */
  function Melt(t: Table, vars: seq<string>): (r: Result<seq<LongRecord>>)
    requires WellFormed(t)
    ensures r.Ok? <==> forall j :: 0 <= j < |vars| ==> vars[j] in t.columns
    ensures r.Err? ==> exists j :: 0 <= j < |vars| && r.error == MissingColumn(vars[j]) && vars[j] !in t.columns
  {
    if vars == [] then Ok([])
    else if vars[0] !in t.columns then Err(MissingColumn(vars[0]))
    else match Melt(t, vars[1..])
      case Err(e) => Err(e)
      case Ok(rest) => Ok(MeltColumn(t, vars[0]) + rest)
  }

  /** Melting two present columns `a` and `b` gives the `a` records of every
      row followed by the `b` records of every row. */
  lemma MeltTwo(t: Table, a: string, b: string)
    requires WellFormed(t) && a in t.columns && b in t.columns
    ensures Melt(t, [a, b]) == Ok(MeltColumn(t, a) + MeltColumn(t, b))
  {
    assert [a, b][1..] == [b];
    assert [b][1..] == [];
    assert Melt(t, []) == Ok([]);
    assert Melt(t, [b]) == Ok(MeltColumn(t, b) + []);
    assert MeltColumn(t, b) + [] == MeltColumn(t, b);
  }

  /** `melted['Type'].replace(rename)`: a type equal to a key is replaced by its value. */
  function RenameMetric(m: string, rename: map<string, string>): string
  {
    if m in rename then rename[m] else m
  }

  function RenameTypes(recs: seq<LongRecord>, rename: map<string, string>): (r: seq<LongRecord>)
    ensures |r| == |recs|
    ensures forall i :: 0 <= i < |recs| ==> r[i] == recs[i].(metric := RenameMetric(recs[i].metric, rename))
  {
    seq(|recs|, i requires 0 <= i < |recs| => recs[i].(metric := RenameMetric(recs[i].metric, rename)))
  }

  /** The record the melt and rename make from column `metric` of `row`. */
  function Renamed(row: Row, metric: string, rename: map<string, string>): LongRecord
    requires metric in row.metrics
  {
    LongRecord(row.zone, row.resource, RenameMetric(metric, rename), row.metrics[metric])
  }

  /** Melting two columns and renaming: row `i`'s `a` record sits at `i`, its
      `b` record at `|t.rows| + i`. */
  lemma RenamedMeltTwo(t: Table, a: string, b: string, rename: map<string, string>)
    requires WellFormed(t) && a in t.columns && b in t.columns
    ensures |RenameTypes(MeltColumn(t, a) + MeltColumn(t, b), rename)| == 2 * |t.rows|
    ensures forall i :: 0 <= i < |t.rows| ==>
              RenameTypes(MeltColumn(t, a) + MeltColumn(t, b), rename)[i] == Renamed(t.rows[i], a, rename) &&
              RenameTypes(MeltColumn(t, a) + MeltColumn(t, b), rename)[|t.rows| + i] == Renamed(t.rows[i], b, rename)
  {
    var n := |t.rows|;
    var m := MeltColumn(t, a) + MeltColumn(t, b);
    forall i | 0 <= i < n
      ensures RenameTypes(m, rename)[i] == Renamed(t.rows[i], a, rename)
      ensures RenameTypes(m, rename)[n + i] == Renamed(t.rows[i], b, rename)
    {
      assert m[i] == MeltColumn(t, a)[i];
      assert m[n + i] == MeltColumn(t, b)[i];
    }
  }

  /** A power results table as read from disk: one column per resource (the
      last being the `Total` column) and one labelled row per series
      (`Zone`, `AnnualSum`, then one per time step). */
  datatype PowerRow = PowerRow(series: string, values: seq<real>)
  datatype PowerTable = PowerTable(resources: seq<string>, rows: seq<PowerRow>)

  predicate PowerWellFormed(p: PowerTable)
  {
    forall i :: 0 <= i < |p.rows| ==> |p.rows[i].values| == |p.resources|
  }

  /** The transposed table restricted to its `AnnualSum` column: one
      `(resource, annual sum)` pair per resource column, in column order.
      Without an `AnnualSum` row the column selection raises `KeyError`. */
  function AnnualSums(p: PowerTable): (r: Result<seq<(string, real)>>)
    requires PowerWellFormed(p)
    ensures r.Err? <==> forall i :: 0 <= i < |p.rows| ==> p.rows[i].series != "AnnualSum"
    ensures r.Err? ==> r.error == MissingColumn("AnnualSum")
    ensures r.Ok? ==> |r.value| == |p.resources|
    ensures r.Ok? ==>
      exists i :: 0 <= i < |p.rows| && p.rows[i].series == "AnnualSum" &&
        (forall k :: 0 <= k < i ==> p.rows[k].series != "AnnualSum") &&
        (forall j :: 0 <= j < |p.resources| ==> r.value[j] == (p.resources[j], p.rows[i].values[j]))
  {
    match FirstWhere(p.rows, (row: PowerRow) => row.series == "AnnualSum")
    case None => Err(MissingColumn("AnnualSum"))
    case Some(i) =>
      Ok(seq(|p.resources|, j requires 0 <= j < |p.resources| => (p.resources[j], p.rows[i].values[j])))
  }

  /** A pandas frame whose `Resource` column the classifier overwrites in place. */
  class Frame {
    var columns: set<string>
    var rows: seq<Row>

    constructor (t: Table)
      ensures columns == t.columns && rows == t.rows
    {
      columns := t.columns;
      rows := t.rows;
    }

    function Snapshot(): Table
      reads this
    {
      Table(columns, rows)
    }

    /** `df['Resource'] = cats`. */
    method SetResources(cats: seq<string>)
      requires |cats| == |rows|
      modifies this
      ensures rows == Relabel(old(rows), cats)
      ensures columns == old(columns)
    {
      rows := Relabel(rows, cats);
    }

    /** `df['Resource'] = df['Resource'].apply(f)`: classifies every row in
        order; the first failure propagates and leaves the frame as it was. */
    method Classify(f: string -> Result<string>) returns (r: Result<seq<string>>)
      modifies this
      ensures r == MapResults(f, Resources(old(rows)))
      ensures columns == old(columns)
      ensures rows == (if r.Ok? then Relabel(old(rows), r.value) else old(rows))
    {
      var cats: seq<string> := [];
      var i := 0;
      while i < |rows|
        invariant 0 <= i <= |rows| && |cats| == i
        invariant forall k :: 0 <= k < i ==> f(rows[k].resource) == Ok(cats[k])
      {
        var c := f(rows[i].resource);
        if c.Err? {
          return Err(c.error);
        }
        cats := cats + [c.value];
        i := i + 1;
      }
      assert MapResults(f, Resources(rows)).value == cats;
      SetResources(cats);
      r := Ok(cats);
    }

    /** `identify_tech_type(df, ...)` with `aggregate=True`: overwrites
        `df['Resource']` with the categories, then groups by
        `(Zone, Resource)`. A failing classification leaves the frame as it
        was. */
    method IdentifyTechType(f: string -> Result<string>) returns (r: Result<seq<Group<(string, string)>>>)
      requires WellFormed(Snapshot())
      modifies this
      ensures r == Identify(old(Snapshot()), f)
      ensures columns == old(columns)
      ensures rows == (if r.Ok? then Relabel(old(rows), MapResults(f, Resources(old(rows))).value) else old(rows))
    {
      ghost var t := Snapshot();
      var cats := Classify(f);
      if cats.Err? {
        return Err(cats.error);
      }
      assert |cats.value| == |Resources(t.rows)| == |t.rows|;
      RelabelWellFormed(t, cats.value);
      r := Ok(GroupSum(Keyed(rows), columns));
    }
  }
}
