/** The substring classifier shared by the three wrangling modules: an ordered
    table of bins, each with an ordered list of patterns, scanned bin by bin
    and pattern by pattern; the first pattern found in the lower-cased name
    decides the bin, and an optional carbon-capture rule may add `_ccs`. */
module BinMatching {

  import opened Outcomes
  import opened Text
  import opened Search

  /** One entry of a bin dictionary: the category key and its patterns, in
      declaration order. */
  datatype Bin = Bin(name: string, patterns: seq<string>)

  /** How the carbon-capture branch behaves once a bin has matched. */
  datatype CcsRule =
    | SuffixWhenNamed // returns `cat_bin + "_ccs"` when both the bin's key and "ccs" occur in the name
    | NeverFires      // the guard tests a string against the dictionary's (key, patterns) pairs: always false

  /** Some pattern of bin `b` occurs in `s`. */
  predicate BinMatches(b: Bin, s: string)
  {
    exists j :: 0 <= j < |b.patterns| && Contains(s, b.patterns[j])
  }

  /** Index of the first bin, in declaration order, that matches `s`. */
  function FirstMatch(bins: seq<Bin>, s: string): Option<nat>
  {
    FirstWhere(bins, b => BinMatches(b, s))
  }

  /** What the scan returns once bin `b` has matched. */
  function Matched(b: Bin, rule: CcsRule, s: string): string
  {
    if rule == SuffixWhenNamed && Contains(s, b.name) && Contains(s, "ccs") then b.name + "_ccs" else b.name
  }

  /** The category the scan assigns to the lower-cased name `s`; with no match
      the name itself is the category. */
  function Scan(bins: seq<Bin>, rule: CcsRule, s: string): string
  {
    match FirstMatch(bins, s)
    case None => s
    case Some(i) => Matched(bins[i], rule, s)
  }

  /** The nested loop of `categorize_energy_type` after the "h2" check: bins in
      order, patterns in order, return on the first pattern found. */
  method ScanBins(bins: seq<Bin>, rule: CcsRule, s: string) returns (r: string)
    ensures r == Scan(bins, rule, s)
  {
    var i := 0;
    while i < |bins|
      invariant 0 <= i <= |bins|
      invariant forall k :: 0 <= k < i ==> !BinMatches(bins[k], s)
    {
      var patterns := bins[i].patterns;
      var j := 0;
      while j < |patterns|
        invariant 0 <= j <= |patterns|
        invariant forall m :: 0 <= m < j ==> !Contains(s, patterns[m])
      {
        if Contains(s, patterns[j]) {
          FirstWhereUnique(bins, b => BinMatches(b, s), i);
          if rule == SuffixWhenNamed && Contains(s, bins[i].name) && Contains(s, "ccs") {
            return bins[i].name + "_ccs";
          }
          return bins[i].name;
        }
        j := j + 1;
      }
      i := i + 1;
    }
    return s;
  }

  /** The scan's result is decided by the first matching bin: it is that bin's
      key (or the key plus `_ccs`), and with no matching bin it is the name. */
  lemma ScanFirstMatch(bins: seq<Bin>, rule: CcsRule, s: string, i: nat)
    requires i < |bins| && BinMatches(bins[i], s)
    requires forall k :: 0 <= k < i ==> !BinMatches(bins[k], s)
    ensures Scan(bins, rule, s) == Matched(bins[i], rule, s)
  {
    FirstWhereUnique(bins, b => BinMatches(b, s), i);
  }

  /** An earlier-declared bin beats a later one: when bin `i` matches, the
      deciding bin is `i` or one declared before it, never a later one. */
  lemma EarlierBinWins(bins: seq<Bin>, rule: CcsRule, s: string, i: nat, j: nat)
    requires i < j < |bins| && BinMatches(bins[i], s)
    ensures FirstMatch(bins, s).Some? && FirstMatch(bins, s).value <= i
    ensures Scan(bins, rule, s) == Matched(bins[FirstMatch(bins, s).value], rule, s)
    ensures FirstMatch(bins, s) != Some(j)
  {
  }

  /** `categorize_energy_type` over a given table: the name is lower-cased,
      any name containing "h2" is "H2" before the table is even looked at,
      an unbound table (`None`) fails with `UnboundBins`, and otherwise the
      first-match scan decides. */
  function Classify(table: Option<seq<Bin>>, rule: CcsRule, name: string): (r: Result<string>)
    ensures Contains(Lower(name), "h2") ==> r == Ok("H2")
    ensures r.Err? <==> !Contains(Lower(name), "h2") && table.None?
    ensures r.Err? ==> r.error == UnboundBins
  {
    var s := Lower(name);
    if Contains(s, "h2") then Ok("H2")
    else match table
      case None => Err(UnboundBins)
      case Some(bins) => Ok(Scan(bins, rule, s))
  }

  /** The classifier as `Series.apply` uses it. */
  function Classifier(table: Option<seq<Bin>>, rule: CcsRule): string -> Result<string>
  {
    name => Classify(table, rule, name)
  }

  /** The `_ccs` suffix is added only under the rule that has it, and only when
      the bin's own key and "ccs" both occur in the name. */
  lemma CcsSuffixOnlyWhenNamed(b: Bin, rule: CcsRule, s: string)
    ensures Matched(b, rule, s) == b.name + "_ccs" || Matched(b, rule, s) == b.name
    ensures Matched(b, rule, s) != b.name <==> rule == SuffixWhenNamed && Contains(s, b.name) && Contains(s, "ccs")
  {
    if Matched(b, rule, s) != b.name {
      assert |Matched(b, rule, s)| != |b.name|;
    }
    assert |b.name + "_ccs"| == |b.name| + 4;
  }

  /** Every scan result is a bin key, a bin key plus `_ccs`, or the name itself,
      and the name itself only when no bin matches. */
  lemma {:induction false} ScanResultShape(bins: seq<Bin>, rule: CcsRule, s: string)
    ensures (Scan(bins, rule, s) == s && forall k :: 0 <= k < |bins| ==> !BinMatches(bins[k], s))
         || exists k :: 0 <= k < |bins| && BinMatches(bins[k], s) &&
                        (Scan(bins, rule, s) == bins[k].name || Scan(bins, rule, s) == bins[k].name + "_ccs")
  {
    match FirstMatch(bins, s)
    case None =>
    case Some(i) =>
      CcsSuffixOnlyWhenNamed(bins[i], rule, s);
  }

  /** Every classification is "H2", a key of the table (possibly with
      `_ccs`) owning a pattern found in the lower-cased name, or the
      lower-cased name itself when no key owns one. */
  lemma ClassifyResultShape(bins: seq<Bin>, rule: CcsRule, name: string)
    ensures var r := Classify(Some(bins), rule, name).value;
            r == "H2" ||
            (r == Lower(name) && forall k :: 0 <= k < |bins| ==> !BinMatches(bins[k], Lower(name))) ||
            exists k :: 0 <= k < |bins| && BinMatches(bins[k], Lower(name)) &&
                        (r == bins[k].name || r == bins[k].name + "_ccs")
  {
    if !Contains(Lower(name), "h2") {
      ScanResultShape(bins, rule, Lower(name));
    }
  }

  /** A bin that a name without "h2" matches, with no earlier bin matching,
      decides the classification. */
  lemma ClassifyByBin(bins: seq<Bin>, rule: CcsRule, name: string, i: nat)
    requires !Contains(Lower(name), "h2")
    requires i < |bins| && BinMatches(bins[i], Lower(name))
    requires forall k :: 0 <= k < i ==> !BinMatches(bins[k], Lower(name))
    ensures Classify(Some(bins), rule, name) == Ok(Matched(bins[i], rule, Lower(name)))
  {
    ScanFirstMatch(bins, rule, Lower(name), i);
  }

  /** A name matching no bin and lacking "h2" is returned lower-cased. */
  lemma ClassifyNoMatch(bins: seq<Bin>, rule: CcsRule, name: string)
    requires !Contains(Lower(name), "h2")
    requires forall k :: 0 <= k < |bins| ==> !BinMatches(bins[k], Lower(name))
    ensures Classify(Some(bins), rule, name) == Ok(Lower(name))
  {
  }

  /** Every pattern of `later` contains some pattern of `earlier`, so any
      name `later` matches, `earlier` matches too. */
  predicate Shadows(earlier: Bin, later: Bin)
  {
    forall k :: 0 <= k < |later.patterns| ==>
      exists m :: 0 <= m < |earlier.patterns| && Contains(later.patterns[k], earlier.patterns[m])
  }

  /** A bin shadowed by an earlier bin never decides the scan. */
  lemma ShadowedBinNeverDecides(bins: seq<Bin>, s: string, i: nat, j: nat)
    requires i < j < |bins| && Shadows(bins[i], bins[j])
    ensures FirstMatch(bins, s) != Some(j)
  {
    if BinMatches(bins[j], s) {
      var k :| 0 <= k < |bins[j].patterns| && Contains(s, bins[j].patterns[k]);
      var m :| 0 <= m < |bins[i].patterns| && Contains(bins[j].patterns[k], bins[i].patterns[m]);
      ContainsTransitive(s, bins[j].patterns[k], bins[i].patterns[m]);
    }
  }

  /** The key of a shadowed bin is never a classification when it holds an
      upper-case letter (so it is no lower-cased name), is not "H2", and no
      other key, with or without `_ccs`, spells it. */
  lemma ShadowedKeyNeverReturned(bins: seq<Bin>, rule: CcsRule, name: string, i: nat, j: nat)
    requires i < j < |bins| && Shadows(bins[i], bins[j])
    requires HasUpper(bins[j].name) && bins[j].name != "H2"
    requires forall k :: 0 <= k < |bins| && k != j ==> bins[k].name != bins[j].name && bins[k].name + "_ccs" != bins[j].name
    ensures Classify(Some(bins), rule, name) != Ok(bins[j].name)
  {
    var s := Lower(name);
    if !Contains(s, "h2") {
      ShadowedBinNeverDecides(bins, s, i, j);
      match FirstMatch(bins, s)
      case None =>
        LowerHasNoUpper(name);
      case Some(k) =>
        CcsSuffixOnlyWhenNamed(bins[k], rule, s);
    }
  }

  /** A pattern written with an upper-case letter never matches: the name is
      lower-cased before the scan. */
  lemma {:induction false} UpperCasePatternNeverMatches(b: Bin, j: nat, name: string)
    requires j < |b.patterns| && HasUpper(b.patterns[j])
    ensures !Contains(Lower(name), b.patterns[j])
  {
    UpperPatternNeverInLowered(name, b.patterns[j]);
  }
}
