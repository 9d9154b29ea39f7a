/** `DataFrame.groupby(key).sum()` on the numeric columns: rows sharing a key
    collapse into one group whose values are the column-wise sums. Groups are
    kept in the order their keys first appear. */
module Grouping {

  /** Numeric cells of one row, by column name. */
  type Metrics = map<string, real>

  /** One aggregated row: its key and the column-wise sums. */
  datatype Group<K> = Group(key: K, sums: Metrics)

  /** Column-wise sum of two rows with the same columns. */
  function MetricsAdd(a: Metrics, b: Metrics): (r: Metrics)
    requires a.Keys == b.Keys
    ensures r.Keys == a.Keys
    ensures forall c :: c in r ==> r[c] == a[c] + b[c]
  {
    map c | c in a.Keys :: a[c] + b[c]
  }

  /** Every row carries exactly the numeric columns `cols`. */
  predicate RowsWidth<K>(rows: seq<(K, Metrics)>, cols: set<string>)
  {
    forall i :: 0 <= i < |rows| ==> rows[i].1.Keys == cols
  }

  predicate GroupsWidth<K>(gs: seq<Group<K>>, cols: set<string>)
  {
    forall i :: 0 <= i < |gs| ==> gs[i].sums.Keys == cols
  }

  predicate UniqueKeys<K(==)>(gs: seq<Group<K>>)
  {
    forall i, j :: 0 <= i < j < |gs| ==> gs[i].key != gs[j].key
  }

  function Keys<K(==)>(gs: seq<Group<K>>): set<K>
  {
    set i | 0 <= i < |gs| :: gs[i].key
  }

  function RowKeys<K(==)>(rows: seq<(K, Metrics)>): set<K>
  {
    set i | 0 <= i < |rows| :: rows[i].0
  }

  /** Adds one row into the groups: into the group with its key if there is one,
      else as a new group at the end. */
  function AddInto<K(==)>(gs: seq<Group<K>>, k: K, v: Metrics): (r: seq<Group<K>>)
    requires GroupsWidth(gs, v.Keys)
    ensures GroupsWidth(r, v.Keys)
    ensures |gs| <= |r| <= |gs| + 1
  {
    if gs == [] then
      ConsWidth(Group(k, v), [], v.Keys);
      [Group(k, v)]
    else if gs[0].key == k then
      var g := Group(k, MetricsAdd(gs[0].sums, v));
      ConsWidth(gs[0], gs[1..], v.Keys);
      ConsWidth(g, gs[1..], v.Keys);
      [g] + gs[1..]
    else
      var rest := AddInto(gs[1..], k, v);
      ConsWidth(gs[0], gs[1..], v.Keys);
      ConsWidth(gs[0], rest, v.Keys);
      [gs[0]] + rest
  }

  /** Adding a row adds its key to the keys, and keeps keys unique. */
  lemma {:induction false} AddIntoKeys<K>(gs: seq<Group<K>>, k: K, v: Metrics)
    requires GroupsWidth(gs, v.Keys)
    ensures Keys(AddInto(gs, k, v)) == Keys(gs) + {k}
    ensures UniqueKeys(gs) ==> UniqueKeys(AddInto(gs, k, v))
  {
    var r := AddInto(gs, k, v);
    if gs == [] {
      ConsShape(Group(k, v), [], v.Keys);
    } else if gs[0].key == k {
      assert gs == [gs[0]] + gs[1..];
      ConsShape(gs[0], gs[1..], v.Keys);
      ConsShape(r[0], gs[1..], v.Keys);
    } else {
      ConsWidth(gs[0], gs[1..], v.Keys);
      AddIntoKeys(gs[1..], k, v);
      assert gs == [gs[0]] + gs[1..];
      ConsShape(gs[0], gs[1..], v.Keys);
      ConsShape(gs[0], AddInto(gs[1..], k, v), v.Keys);
    }
  }

  /** How width, keys and key uniqueness of `[g] + gs` follow from those of `gs`. */
  lemma ConsShape<K>(g: Group<K>, gs: seq<Group<K>>, cols: set<string>)
    ensures GroupsWidth([g] + gs, cols) <==> g.sums.Keys == cols && GroupsWidth(gs, cols)
    ensures Keys([g] + gs) == {g.key} + Keys(gs)
    ensures UniqueKeys([g] + gs) <==> g.key !in Keys(gs) && UniqueKeys(gs)
  {
    KeysCons(g, gs);
    ConsWidth(g, gs, cols);
    ConsUnique(g, gs);
  }

  lemma ConsWidth<K>(g: Group<K>, gs: seq<Group<K>>, cols: set<string>)
    ensures GroupsWidth([g] + gs, cols) <==> g.sums.Keys == cols && GroupsWidth(gs, cols)
  {
    var r := [g] + gs;
    assert r[0] == g && r[1..] == gs;
    assert forall i :: 0 <= i < |gs| ==> r[1..][i] == r[i + 1];
  }

  lemma ConsUnique<K>(g: Group<K>, gs: seq<Group<K>>)
    ensures UniqueKeys([g] + gs) <==> g.key !in Keys(gs) && UniqueKeys(gs)
  {
    var r := [g] + gs;
    assert r[0] == g && r[1..] == gs;
    assert forall i :: 0 <= i < |gs| ==> r[1..][i] == r[i + 1];
    if UniqueKeys(r) {
      forall i | 0 <= i < |gs| ensures gs[i].key != g.key {
        assert r[i + 1].key != r[0].key;
      }
    }
  }

  lemma KeysCons<K>(g: Group<K>, gs: seq<Group<K>>)
    ensures Keys([g] + gs) == {g.key} + Keys(gs)
  {
    var r := [g] + gs;
    assert r[0].key == g.key;
    forall x | x in Keys(r) ensures x in {g.key} + Keys(gs) {
      var i :| 0 <= i < |r| && r[i].key == x;
      if i > 0 { assert gs[i - 1].key == x; }
    }
    forall x | x in Keys(gs) ensures x in Keys(r) {
      var i :| 0 <= i < |gs| && gs[i].key == x;
      assert r[i + 1].key == x;
    }
  }

  /** `groupby(key).sum()` over rows whose numeric columns are `cols`, folding rows in order. */
  function GroupSum<K(==)>(rows: seq<(K, Metrics)>, cols: set<string>): (gs: seq<Group<K>>)
    requires RowsWidth(rows, cols)
    ensures GroupsWidth(gs, cols)
    ensures UniqueKeys(gs)
    ensures Keys(gs) == RowKeys(rows)
    ensures |gs| <= |rows|
  {
    if rows == [] then []
    else
      var init := rows[..|rows| - 1];
      var last := rows[|rows| - 1];
      assert RowKeys(rows) == RowKeys(init) + {last.0} by {
        forall x | x in RowKeys(rows) ensures x in RowKeys(init) + {last.0} {
          var i :| 0 <= i < |rows| && rows[i].0 == x;
          if i < |rows| - 1 { assert init[i].0 == x; }
        }
      }
      AddIntoKeys(GroupSum(init, cols), last.0, last.1);
      AddInto(GroupSum(init, cols), last.0, last.1)
  }

  /** Sum of column `c` over the rows whose key satisfies `p`. */
  function SumRows<K>(rows: seq<(K, Metrics)>, p: K -> bool, c: string): real
    requires forall i :: 0 <= i < |rows| ==> c in rows[i].1
  {
    if rows == [] then 0.0
    else
      var last := rows[|rows| - 1];
      SumRows(rows[..|rows| - 1], p, c) + (if p(last.0) then last.1[c] else 0.0)
  }

  /** Sum of column `c` over the groups whose key satisfies `p`. */
  function SumGroups<K>(gs: seq<Group<K>>, p: K -> bool, c: string): real
    requires forall i :: 0 <= i < |gs| ==> c in gs[i].sums
  {
    if gs == [] then 0.0
    else (if p(gs[0].key) then gs[0].sums[c] else 0.0) + SumGroups(gs[1..], p, c)
  }

  lemma {:induction false} AddIntoSum<K>(gs: seq<Group<K>>, k: K, v: Metrics, p: K -> bool, c: string)
    requires GroupsWidth(gs, v.Keys) && c in v
    ensures SumGroups(AddInto(gs, k, v), p, c) == SumGroups(gs, p, c) + (if p(k) then v[c] else 0.0)
  {
    if gs != [] && gs[0].key != k {
      AddIntoSum(gs[1..], k, v, p, c);
      var r := AddInto(gs, k, v);
      assert r[1..] == AddInto(gs[1..], k, v);
    } else if gs != [] {
      var r := AddInto(gs, k, v);
      assert r[1..] == gs[1..];
    }
  }

  /** Conservation: for any selection of keys, the groups' total of a column
      equals the input rows' total. With `p` true everywhere this is the grand
      total; with `p` selecting a zone it is the per-zone total. */
  lemma {:induction false} GroupSumConserves<K>(rows: seq<(K, Metrics)>, cols: set<string>, p: K -> bool, c: string)
    requires RowsWidth(rows, cols) && c in cols
    ensures SumGroups(GroupSum(rows, cols), p, c) == SumRows(rows, p, c)
  {
    if rows != [] {
      var init := rows[..|rows| - 1];
      var last := rows[|rows| - 1];
      GroupSumConserves(init, cols, p, c);
      AddIntoSum(GroupSum(init, cols), last.0, last.1, p, c);
    }
  }

  /** The selection of exactly the key `k`. */
  function KeyIs<K(==)>(k: K): K -> bool
  {
    x => x == k
  }

  /** With unique keys, selecting exactly one key picks out that group's sum. */
  lemma {:induction false} SumGroupsOfOneKey<K>(gs: seq<Group<K>>, i: nat, c: string)
    requires UniqueKeys(gs) && i < |gs|
    requires forall j :: 0 <= j < |gs| ==> c in gs[j].sums
    ensures SumGroups(gs, KeyIs(gs[i].key), c) == gs[i].sums[c]
  {
    var k := gs[i].key;
    if i == 0 {
      SumGroupsNone(gs[1..], k, c);
    } else {
      SumGroupsOfOneKey(gs[1..], i - 1, c);
      assert gs[1..][i - 1].key == k;
    }
  }

  lemma {:induction false} SumGroupsNone<K>(gs: seq<Group<K>>, k: K, c: string)
    requires forall j :: 0 <= j < |gs| ==> c in gs[j].sums && gs[j].key != k
    ensures SumGroups(gs, KeyIs(k), c) == 0.0
  {
    if gs != [] {
      SumGroupsNone(gs[1..], k, c);
    }
  }

  /** Each group's value in a column is the sum of that column over exactly
      the input rows with the group's key. */
  lemma GroupValue<K>(rows: seq<(K, Metrics)>, cols: set<string>, i: nat, c: string)
    requires RowsWidth(rows, cols) && c in cols && i < |GroupSum(rows, cols)|
    ensures GroupSum(rows, cols)[i].sums[c] == SumRows(rows, KeyIs(GroupSum(rows, cols)[i].key), c)
  {
    var gs := GroupSum(rows, cols);
    SumGroupsOfOneKey(gs, i, c);
    GroupSumConserves(rows, cols, KeyIs(gs[i].key), c);
  }
}
