/** `lineagejson2text`: one tab-separated line per lineage call, lines joined
    by newlines. */
module Lineage {
  import opened Wrappers
  import opened Strings
  import opened Rows

  /** The fields of a line, in the order the `%` format names them. */
  const LineageKeys: seq<string> := ["lin", "family", "spoligotype", "rd", "frac"]

  /** `"%(lin)s\t%(family)s\t%(spoligotype)s\t%(rd)s\t%(frac)s" % rec`. */
  function LineageLine(rec: Row): Result<string>
  {
    match Lookup(rec, LineageKeys)
    case Ok(vs) => Ok(Join(vs, "\t"))
    case Err(e) => Err(e)
  }

  /** The lines of the accumulating loop, one per record in input order; the
      first record missing a field raises KeyError for it. */
  function LineageLines(recs: seq<Row>): (r: Result<seq<string>>)
    ensures r.Ok? <==> forall i :: 0 <= i < |recs| ==> LineageLine(recs[i]).Ok?
    ensures r.Ok? ==> (|r.value| == |recs| &&
                       forall i :: 0 <= i < |recs| ==> LineageLine(recs[i]) == Ok(r.value[i]))
  {
    if recs == [] then Ok([])
    else
      match (LineageLine(recs[0]), LineageLines(recs[1..]))
      case (Err(e), _) => Err(e)
      case (Ok(_), Err(e)) => Err(e)
      case (Ok(line), Ok(rest)) => Ok([line] + rest)
  }

  /** `lineagejson2text(x)`. */
  function LineageJsonToText(recs: seq<Row>): (r: Result<string>)
    ensures recs == [] ==> r == Ok("")
  {
    match LineageLines(recs)
    case Ok(lines) => Ok(Join(lines, "\n"))
    case Err(e) => Err(e)
  }

  /** A field value free of the two separators of the report. */
  predicate Plain(s: string)
  {
    '\t' !in s && '\n' !in s
  }

  /** Every field of the line is present and free of tabs and newlines. */
  predicate CleanRecord(rec: Row)
  {
    && "lin" in rec && "family" in rec && "spoligotype" in rec && "rd" in rec && "frac" in rec
    && Plain(rec["lin"]) && Plain(rec["family"]) && Plain(rec["spoligotype"])
    && Plain(rec["rd"]) && Plain(rec["frac"])
  }

  /** The five fields of a clean record, in line order. */
  function LineValues(rec: Row): seq<string>
    requires CleanRecord(rec)
  {
    [rec["lin"], rec["family"], rec["spoligotype"], rec["rd"], rec["frac"]]
  }

  /** The report fails exactly when some record lacks one of the five fields. */
  lemma LineageTextOk(recs: seq<Row>)
    ensures LineageJsonToText(recs).Ok? <==>
              forall i, k :: 0 <= i < |recs| && k in LineageKeys ==> k in recs[i]
  {
    assert forall i :: 0 <= i < |recs| ==>
             (LineageLine(recs[i]).Ok? <==> forall k :: k in LineageKeys ==> k in recs[i]);
  }

  /** A line of clean fields is the five fields in the fixed order, read
      back by splitting on tabs, and it has no newline. */
  lemma LineFields(rec: Row)
    requires CleanRecord(rec)
    ensures LineageLine(rec).Ok?
    ensures '\n' !in LineageLine(rec).value
    ensures Split(LineageLine(rec).value, "\t") == LineValues(rec)
  {
    var vs := Lookup(rec, LineageKeys).value;
    assert vs == LineValues(rec);
    assert forall i :: 0 <= i < |vs| ==> Plain(vs[i]);
    SplitJoin(vs, "\t");
    JoinExcludes(vs, "\t", '\n');
  }

  /** The report of records whose lines hold no newline splits on newlines
      into exactly those lines, and has one newline fewer than lines. */
  lemma {:induction false} TextSplitsIntoLines(recs: seq<Row>)
    requires recs != []
    requires LineageLines(recs).Ok?
    requires forall i :: 0 <= i < |recs| ==> '\n' !in LineageLines(recs).value[i]
    ensures Split(LineageJsonToText(recs).value, "\n") == LineageLines(recs).value
    ensures Count(LineageJsonToText(recs).value, '\n') == |recs| - 1
  {
    var lines := LineageLines(recs).value;
    SplitJoin(lines, "\n");
    JoinCount(lines, '\n');
  }

  /** The report of clean records splits on newlines into exactly one line
      per record, in input order, each line the record's five fields in the
      order lin, family, spoligotype, rd, frac; so there are |recs| - 1
      newlines and none trailing. */
  lemma LineageTextLines(recs: seq<Row>)
    requires recs != []
    requires forall i :: 0 <= i < |recs| ==> CleanRecord(recs[i])
    ensures LineageJsonToText(recs).Ok?
    ensures Count(LineageJsonToText(recs).value, '\n') == |recs| - 1
    ensures |Split(LineageJsonToText(recs).value, "\n")| == |recs|
    ensures forall i :: 0 <= i < |recs| ==>
              Split(Split(LineageJsonToText(recs).value, "\n")[i], "\t") == LineValues(recs[i])
  {
    forall i | 0 <= i < |recs| ensures LineageLine(recs[i]).Ok? {
      LineFields(recs[i]);
    }
    var lines := LineageLines(recs).value;
    forall i | 0 <= i < |recs|
      ensures '\n' !in lines[i] && Split(lines[i], "\t") == LineValues(recs[i])
    {
      LineFields(recs[i]);
    }
    TextSplitsIntoLines(recs);
  }
}
