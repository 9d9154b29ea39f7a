/** `find_latest_result_folder`: among the entries of a run directory, the
    names starting with "Results" are result folders; the number after the
    last underscore (0 for a name without one) ranks them, and the folder
    name is rebuilt from the largest number. The directory listing itself is
    a parameter. */
module ResultsFolder {

  import opened Outcomes
  import opened Text

  /** `folder.startswith("Results")`. */
  predicate IsResultsFolder(name: string)
  {
    "Results" <= name
  }

  /** `[f for f in entries if f.startswith("Results")]`, in listing order. */
  function ResultFolders(entries: seq<string>): (r: seq<string>)
    ensures forall f :: f in r <==> f in entries && IsResultsFolder(f)
    ensures forall i :: 0 <= i < |r| ==> IsResultsFolder(r[i])
  {
    if entries == [] then []
    else if IsResultsFolder(entries[0]) then [entries[0]] + ResultFolders(entries[1..])
    else ResultFolders(entries[1..])
  }

  /** `int(folder.split("_")[-1]) if "_" in folder else 0`. */
  function SuffixNumber(folder: string): Result<int>
  {
    if HasUnderscore(folder) then
      match ParseInt(LastSegment(folder))
      case None => Err(InvalidNumber(LastSegment(folder)))
      case Some(n) => Ok(n)
    else Ok(0)
  }

  /** `max(xs)`. */
  function MaxOf(xs: seq<int>): (m: int)
    requires |xs| > 0
    ensures m in xs
    ensures forall i :: 0 <= i < |xs| ==> xs[i] <= m
  {
    if |xs| == 1 then xs[0]
    else
      var rest := MaxOf(xs[1..]);
      if xs[0] >= rest then xs[0] else rest
  }

  /** The folder name rebuilt from the largest number. */
  function LatestName(m: int): string
  {
    if m == 0 then "Results" else "Results_" + IntToString(m)
  }

  /** `find_latest_result_folder` of the viz, v1 and consolidated scripts. */
  function FindLatestResultFolder(entries: seq<string>): (r: Result<string>)
    ensures r == Err(NoResultsFound) <==> forall i :: 0 <= i < |entries| ==> !IsResultsFolder(entries[i])
    ensures r.Err? && r.error != NoResultsFound ==>
              exists i :: 0 <= i < |entries| && IsResultsFolder(entries[i]) && SuffixNumber(entries[i]) == Err(r.error)
  {
    var folders := ResultFolders(entries);
    if folders == [] then
      assert forall i :: 0 <= i < |entries| ==> entries[i] !in folders;
      Err(NoResultsFound)
    else
      assert folders[0] in entries;
      var numbers :- MapResults(SuffixNumber, folders);
      Ok(LatestName(MaxOf(numbers)))
  }

  /** A successful choice is named after the largest suffix number among the
      result folders, every one of which has a number. */
  lemma LatestFolderIsMaximum(entries: seq<string>)
    requires FindLatestResultFolder(entries).Ok?
    ensures exists m :: FindLatestResultFolder(entries) == Ok(LatestName(m)) &&
              (exists i :: 0 <= i < |entries| && IsResultsFolder(entries[i]) && SuffixNumber(entries[i]) == Ok(m)) &&
              (forall j :: 0 <= j < |entries| && IsResultsFolder(entries[j]) ==>
                 SuffixNumber(entries[j]).Ok? && SuffixNumber(entries[j]).value <= m)
  {
    var folders := ResultFolders(entries);
    var numbers := MapResults(SuffixNumber, folders).value;
    var m := MaxOf(numbers);
    var k :| 0 <= k < |numbers| && numbers[k] == m;
    assert folders[k] in entries;
    forall j | 0 <= j < |entries| && IsResultsFolder(entries[j])
      ensures SuffixNumber(entries[j]).Ok? && SuffixNumber(entries[j]).value <= m
    {
      assert entries[j] in folders;
      var t :| 0 <= t < |folders| && folders[t] == entries[j];
      assert SuffixNumber(folders[t]) == Ok(numbers[t]);
    }
  }

  lemma {:induction false} LastSegmentAfterUnderscore(a: string, b: string)
    requires '_' !in b
    ensures LastSegment(a + "_" + b) == b
    decreases |b|
  {
    var s := a + "_" + b;
    if b != [] {
      var b' := b[..|b| - 1];
      assert s[..|s| - 1] == a + "_" + b';
      LastSegmentAfterUnderscore(a, b');
      assert b == b' + [b[|b| - 1]];
    }
  }

  /** `"Results_" + t` splits back into `t`. */
  lemma SuffixAfterResults(t: string)
    requires '_' !in t
    ensures HasUnderscore("Results_" + t)
    ensures LastSegment("Results_" + t) == t
  {
    var name := "Results" + "_" + t;
    assert name == "Results_" + t;
    assert name[7] == '_';
    LastSegmentAfterUnderscore("Results", t);
  }

  lemma NatToStringNoUnderscore(n: nat)
    ensures '_' !in NatToString(n)
  {
    var s := NatToString(n);
    forall i | 0 <= i < |s| ensures s[i] != '_' {
      assert IsDigit(s[i]);
    }
  }

  /** The rebuilt name is itself a result folder whose suffix number is the
      maximum it was built from: `int(str(m))` recovers `m`. */
  lemma LatestNameRoundTrip(m: int)
    ensures IsResultsFolder(LatestName(m))
    ensures SuffixNumber(LatestName(m)) == Ok(m)
  {
    if m == 0 {
      assert !HasUnderscore("Results");
    } else {
      var digits := IntToString(m);
      assert '_' !in digits by {
        NatToStringNoUnderscore(if m < 0 then -m else m);
        if m < 0 { assert digits == "-" + NatToString(-m); }
      }
      SuffixAfterResults(digits);
      IntToStringRoundTrip(m);
    }
  }

  /** `find_latest_result_folder` of the source-tree wrangling script: a
      `Results_Example` folder is chosen before any numbered one. */
  function FindLatestResultFolderWithExample(entries: seq<string>): (r: Result<string>)
    ensures "Results_Example" in entries ==> r == Ok("Results_Example")
    ensures "Results_Example" !in entries ==> r == FindLatestResultFolder(entries)
  {
    assert IsResultsFolder("Results_Example");
    if "Results_Example" in ResultFolders(entries) then Ok("Results_Example")
    else FindLatestResultFolder(entries)
  }

  /** The suffix of `Results_Example` is not a number. */
  lemma ExampleFolderHasNoNumber()
    ensures IsResultsFolder("Results_Example")
    ensures SuffixNumber("Results_Example") == Err(InvalidNumber("Example"))
  {
    SuffixAfterResults("Example");
    assert ParseInt("Example") == None by {
      var ex := "Example";
      assert !IsDigit(ex[0]);
    }
  }

  /** Without the override a `Results_Example` folder makes the plain choice fail. */
  lemma ExampleFolderBreaksPlainChoice(entries: seq<string>)
    requires "Results_Example" in entries
    ensures FindLatestResultFolder(entries).Err?
    ensures FindLatestResultFolder(entries) != Err(NoResultsFound)
  {
    ExampleFolderHasNoNumber();
    var folders := ResultFolders(entries);
    assert "Results_Example" in folders;
    var i :| 0 <= i < |folders| && folders[i] == "Results_Example";
    assert !SuffixNumber(folders[i]).Ok?;
  }

  // ----- the rebuilt name need not exist -----

  /** The rebuilt name can be a folder that is not in the listing: a lone
      `Results_0` folder has the maximum 0, so "Results" is returned. */
  lemma RebuiltNameMayBeAbsent()
    ensures FindLatestResultFolder(["Results_0"]) == Ok("Results")
    ensures "Results" !in ["Results_0"]
  {
    SuffixAfterResults("0");
    assert ParseInt("0") == Some(0);
    assert SuffixNumber("Results_0") == Ok(0);
    var entries := ["Results_0"];
    assert entries[1..] == [];
    assert ResultFolders(entries) == entries;
    assert MapResults(SuffixNumber, entries[1..]) == Ok([]);
    assert entries[0] == "Results_0";
    var f: string -> Result<int> := SuffixNumber;
    assert f(entries[0]) == Ok(0);
    assert [0] + [] == [0];
    assert MapResults(SuffixNumber, entries) == Ok([0]);
    assert |"Results"| != |"Results_0"|;
  }

  /** Position of the first largest element. */
  function FirstMaxIndex(xs: seq<int>): (i: nat)
    requires |xs| > 0
    ensures i < |xs|
    ensures forall j :: 0 <= j < |xs| ==> xs[j] <= xs[i]
    ensures forall j :: 0 <= j < i ==> xs[j] < xs[i]
  {
    if |xs| == 1 then 0
    else
      var k := FirstMaxIndex(xs[1..]) + 1;
      if xs[0] >= xs[k] then 0 else k
  }

  /** The listed folder with the largest suffix number (the first one in
      listing order when several share it). */
  function FindLatestExistingResultFolder(entries: seq<string>): (r: Result<string>)
    ensures r.Ok? ==> r.value in entries && IsResultsFolder(r.value) && SuffixNumber(r.value).Ok?
    ensures r.Ok? ==> forall j :: 0 <= j < |entries| && IsResultsFolder(entries[j]) ==>
                        SuffixNumber(entries[j]).Ok? && SuffixNumber(entries[j]).value <= SuffixNumber(r.value).value
    ensures r.Err? <==> FindLatestResultFolder(entries).Err?
    ensures r.Err? ==> r == FindLatestResultFolder(entries)
  {
    var folders := ResultFolders(entries);
    if folders == [] then Err(NoResultsFound)
    else
      match MapResults(SuffixNumber, folders)
      case Err(e) => Err(e)
      case Ok(numbers) =>
        var i := FirstMaxIndex(numbers);
        assert folders[i] in entries;
        assert forall j :: 0 <= j < |entries| && IsResultsFolder(entries[j]) ==> entries[j] in folders;
        Ok(folders[i])
  }

  /** The corrected choice names a listed folder of the same rank as the name
      the original rebuilds. */
  lemma ExistingFolderHasLatestNumber(entries: seq<string>)
    requires FindLatestResultFolder(entries).Ok?
    ensures FindLatestExistingResultFolder(entries).Ok?
    ensures SuffixNumber(FindLatestExistingResultFolder(entries).value) ==
            SuffixNumber(FindLatestResultFolder(entries).value)
  {
    var folders := ResultFolders(entries);
    var numbers := MapResults(SuffixNumber, folders).value;
    var m := MaxOf(numbers);
    LatestNameRoundTrip(m);
    var r := FindLatestExistingResultFolder(entries).value;
    var k :| 0 <= k < |numbers| && numbers[k] == m;
    assert folders[k] in entries;
    assert SuffixNumber(folders[k]) == Ok(m);
    assert SuffixNumber(r).value <= m;
    assert r in folders;
    var t :| 0 <= t < |folders| && folders[t] == r;
    assert SuffixNumber(folders[t]) == Ok(numbers[t]);
  }
}
