/** The drug-table selection of `write_text` (tbprofiler/text.py, line 109):
    for each configured drug that is also in the drug list derived from the
    bed file, in configured order, the first row of the summary's drug table
    whose `Drug` equals it ignoring case. A configured drug with no such row
    makes the whole selection fail. */
module DrugTable {
  import opened Wrappers
  import opened Strings
  import opened Rows

  /** `y["Drug"].upper() == d.upper()`, for a row that has a `Drug` field. */
  predicate Matches(row: Row, d: string)
  {
    "Drug" in row && Upper(row["Drug"]) == Upper(d)
  }

  /** Every row has a `Drug` field, so the comparison never raises. */
  predicate AllHaveDrug(table: seq<Row>)
  {
    forall j :: 0 <= j < |table| ==> "Drug" in table[j]
  }

  /** `y` is the first row of `table` that matches `d`. */
  ghost predicate IsFirstMatch(table: seq<Row>, d: string, y: Row)
  {
    exists j :: 0 <= j < |table| && table[j] == y && Matches(y, d) &&
      forall k :: 0 <= k < j ==> !Matches(table[k], d)
  }

  /** `[d for d in drugs if d in drugList]`: membership in the drug list is
      exact (case-sensitive); configured order is kept. */
  function Selected(drugs: seq<string>, drugList: seq<string>): (r: seq<string>)
    ensures forall d :: d in r <==> d in drugs && d in drugList
    ensures |r| <= |drugs|
  {
    if drugs == [] then []
    else if drugs[0] in drugList then [drugs[0]] + Selected(drugs[1..], drugList)
    else Selected(drugs[1..], drugList)
  }

  /** `[y for y in table if y["Drug"].upper() == d.upper()]`: every row is
      subscripted, so any row without `Drug` raises KeyError. */
  function MatchingRows(table: seq<Row>, d: string): (r: Result<seq<Row>>)
    ensures r.Ok? <==> AllHaveDrug(table)
    ensures r.Err? ==> r.error == KeyError("Drug")
    ensures r.Ok? ==> (r.value == [] <==> forall j :: 0 <= j < |table| ==> !Matches(table[j], d))
    ensures r.Ok? && r.value != [] ==> IsFirstMatch(table, d, r.value[0])
  {
    if table == [] then Ok([])
    else if "Drug" !in table[0] then Err(KeyError("Drug"))
    else
      match MatchingRows(table[1..], d)
      case Err(e) => Err(e)
      case Ok(rest) =>
        if Matches(table[0], d) then
          assert IsFirstMatch(table, d, table[0]) by {
            assert table[0] == table[0];
          }
          Ok([table[0]] + rest)
        else
          if rest != [] then
            ghost var j :| 0 <= j < |table[1..]| && table[1..][j] == rest[0] && Matches(rest[0], d) &&
              forall k :: 0 <= k < j ==> !Matches(table[1..][k], d);
            assert table[j + 1] == rest[0] && forall k :: 0 <= k < j + 1 ==> !Matches(table[k], d);
            Ok(rest)
          else
            Ok(rest)
  }

  /** `[...][0]` on the matching rows: IndexError when no row matches. */
  function FirstMatch(table: seq<Row>, d: string): (r: Result<Row>)
    ensures r.Ok? <==> AllHaveDrug(table) && exists j :: 0 <= j < |table| && Matches(table[j], d)
    ensures r.Ok? ==> IsFirstMatch(table, d, r.value)
    ensures AllHaveDrug(table) && (forall j :: 0 <= j < |table| ==> !Matches(table[j], d)) ==>
              r == Err(IndexError)
  {
    match MatchingRows(table, d)
    case Err(e) => Err(e)
    case Ok(rows) => if rows == [] then Err(IndexError) else Ok(rows[0])
  }

  /** The new `drug_table` of line 109: the first matching row for each
      selected drug, in configured order. */
  function FilterDrugTable(table: seq<Row>, drugs: seq<string>, drugList: seq<string>): (r: Result<seq<Row>>)
    ensures r.Ok? <==> forall d :: d in Selected(drugs, drugList) ==> FirstMatch(table, d).Ok?
    ensures r.Ok? ==> |r.value| == |Selected(drugs, drugList)|
  {
    if drugs == [] then Ok([])
    else if drugs[0] !in drugList then FilterDrugTable(table, drugs[1..], drugList)
    else
      match FirstMatch(table, drugs[0])
      case Err(e) => Err(e)
      case Ok(y) =>
        match FilterDrugTable(table, drugs[1..], drugList)
        case Err(e) => Err(e)
        case Ok(rest) => Ok([y] + rest)
  }

  /** Each entry of the selection is the first row matching the selected
      drug at the same position. */
  lemma {:induction false} FilterPicksFirstMatches(table: seq<Row>, drugs: seq<string>, drugList: seq<string>)
    requires FilterDrugTable(table, drugs, drugList).Ok?
    ensures forall i :: 0 <= i < |Selected(drugs, drugList)| ==>
              FirstMatch(table, Selected(drugs, drugList)[i]) == Ok(FilterDrugTable(table, drugs, drugList).value[i])
  {
    if drugs != [] {
      FilterPicksFirstMatches(table, drugs[1..], drugList);
    }
  }

  /** The selection follows the configured drugs that are in the drug list,
      in order, one entry each, and each entry is the first table row whose
      `Drug` equals that drug ignoring case. */
  lemma FilterDrugTableSpec(table: seq<Row>, drugs: seq<string>, drugList: seq<string>)
    requires FilterDrugTable(table, drugs, drugList).Ok?
    ensures |FilterDrugTable(table, drugs, drugList).value| == |Selected(drugs, drugList)|
    ensures forall i :: 0 <= i < |Selected(drugs, drugList)| ==>
              IsFirstMatch(table, Selected(drugs, drugList)[i], FilterDrugTable(table, drugs, drugList).value[i])
  {
    FilterPicksFirstMatches(table, drugs, drugList);
  }

  /** Strictness: a configured drug that is in the drug list but matches no
      row of a well-formed table makes the selection fail with IndexError,
      instead of being skipped. */
  lemma {:induction false} MissingDrugFails(table: seq<Row>, drugs: seq<string>, drugList: seq<string>, d: string)
    requires AllHaveDrug(table)
    requires d in drugs && d in drugList
    requires forall j :: 0 <= j < |table| ==> !Matches(table[j], d)
    ensures FilterDrugTable(table, drugs, drugList) == Err(IndexError)
  {
    if drugs[0] == d {
    } else {
      assert d in drugs[1..];
      MissingDrugFails(table, drugs[1..], drugList, d);
      if drugs[0] in drugList {
        var first := FirstMatch(table, drugs[0]);
        assert first.Err? ==> first.error == IndexError;
      }
    }
  }

  /** A table row that lacks `Drug` fails the selection with KeyError as
      soon as one configured drug is selected, whether or not it matches. */
  lemma {:induction false} RowWithoutDrugFails(table: seq<Row>, drugs: seq<string>, drugList: seq<string>)
    requires !AllHaveDrug(table)
    requires Selected(drugs, drugList) != []
    ensures FilterDrugTable(table, drugs, drugList) == Err(KeyError("Drug"))
  {
    if drugs[0] !in drugList {
      RowWithoutDrugFails(table, drugs[1..], drugList);
    }
  }

  /** Drug names are compared ignoring case, list membership is not: a table
      row `RIFAMPICIN` is chosen for the configured `rifampicin`, but a
      configured `Rifampicin` is dropped when the drug list spells it
      `rifampicin`. */
  lemma CaseExample()
    ensures FilterDrugTable([map["Drug" := "RIFAMPICIN"]], ["rifampicin"], ["rifampicin"]) ==
              Ok([map["Drug" := "RIFAMPICIN"]])
    ensures FilterDrugTable([map["Drug" := "RIFAMPICIN"]], ["Rifampicin"], ["rifampicin"]) == Ok([])
  {
    var row: Row := map["Drug" := "RIFAMPICIN"];
    assert forall i :: 0 <= i < 10 ==> Upper("rifampicin")[i] == "RIFAMPICIN"[i];
    assert Upper("rifampicin") == "RIFAMPICIN";
    assert forall i :: 0 <= i < 10 ==> Upper("RIFAMPICIN")[i] == "RIFAMPICIN"[i];
    assert Upper("RIFAMPICIN") == "RIFAMPICIN";
    assert Matches(row, "rifampicin");
    assert [row][1..] == [] && MatchingRows([row][1..], "rifampicin") == Ok([]);
    assert [row][0] == row && "Drug" in [row][0] && [row] + [] == [row];
    assert MatchingRows([row], "rifampicin") == Ok([row]);
    assert FirstMatch([row], "rifampicin") == Ok(row);
    var drugs: seq<string> := ["rifampicin"];
    assert drugs[1..] == [] && FilterDrugTable([row], drugs[1..], drugs) == Ok([]);
    assert "Rifampicin" !in ["rifampicin"];
  }
}
