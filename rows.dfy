/** A record of the profiling result (a lineage call, a drug-table row, a
    drug entry of a variant) as a mapping from field name to its rendered
    text, and Python's subscripts on it, which raise KeyError on a missing
    field. */
module Rows {
  import opened Wrappers

  type Row = map<string, string>

  /** The values of `keys` in `row`, looked up in order the way successive
      `row[k]` subscripts (or a `%(k)s` format) do: the first missing key
      raises KeyError. */
  function Lookup(row: Row, keys: seq<string>): (r: Result<seq<string>>)
    ensures r.Ok? <==> forall i :: 0 <= i < |keys| ==> keys[i] in row
    ensures r.Ok? ==> (|r.value| == |keys| &&
                       forall i :: 0 <= i < |keys| ==> r.value[i] == row[keys[i]])
    ensures r.Err? ==> (exists i :: 0 <= i < |keys| && keys[i] !in row &&
                          r.error == KeyError(keys[i]) && forall j :: 0 <= j < i ==> keys[j] in row)
  {
    if keys == [] then Ok([])
    else if keys[0] !in row then Err(KeyError(keys[0]))
    else
      match Lookup(row, keys[1..])
      case Ok(vs) => Ok([row[keys[0]]] + vs)
      case Err(e) =>
        ghost var i :| 0 <= i < |keys[1..]| && keys[1..][i] !in row &&
          e == KeyError(keys[1..][i]) && forall j :: 0 <= j < i ==> keys[1..][j] in row;
        assert keys[i + 1] !in row && forall j :: 0 <= j < i + 1 ==> keys[j] in row;
        Err(e)
  }

  /** `[row[key] for row in rows]`: KeyError on the first row without `key`. */
  function Column(rows: seq<Row>, key: string): (r: Result<seq<string>>)
    ensures r.Ok? <==> forall i :: 0 <= i < |rows| ==> key in rows[i]
    ensures r.Ok? ==> (|r.value| == |rows| &&
                       forall i :: 0 <= i < |rows| ==> r.value[i] == rows[i][key])
    ensures r.Err? ==> r.error == KeyError(key)
  {
    if rows == [] then Ok([])
    else if key !in rows[0] then Err(KeyError(key))
    else
      match Column(rows[1..], key)
      case Ok(vs) => Ok([rows[0][key]] + vs)
      case Err(e) => Err(e)
  }
}
