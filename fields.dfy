/** The scalar template variables `write_text` derives: the display
    separator, the database version string, the median depth, and the
    column list of the resistance report. */
module Fields {
  import opened Wrappers
  import opened Strings
  import opened Rows

  /** `sep`: `": "` for tab-separated tables, `","` for any other separator. */
  function DisplaySep(sep: string): (r: string)
    ensures r == ": " <==> sep == "\t"
    ensures r == "," <==> sep != "\t"
  {
    if sep == "\t" then ": " else ","
  }

  /** The fields of the database version, in format order. */
  const DbVersionKeys: seq<string> := ["name", "commit", "Author", "Date"]

  /** `"%s_%s_%s_%s" % (tmp["name"], tmp["commit"], tmp["Author"], tmp["Date"])`. */
  function DbVersion(db: Row): (r: Result<string>)
    ensures r.Ok? <==> "name" in db && "commit" in db && "Author" in db && "Date" in db
    ensures "name" !in db ==> r == Err(KeyError("name"))
    ensures r.Err? ==> Lookup(db, DbVersionKeys) == Err(r.error)
  {
    assert DbVersionKeys[0] == "name" && DbVersionKeys[1] == "commit";
    assert DbVersionKeys[2] == "Author" && DbVersionKeys[3] == "Date";
    match Lookup(db, DbVersionKeys)
    case Ok(vs) => Ok(Join(vs, "_"))
    case Err(e) => Err(e)
  }

  /** The database version reads back as name, commit, author and date
      when none of them holds an underscore. */
  lemma DbVersionParts(db: Row)
    requires "name" in db && "commit" in db && "Author" in db && "Date" in db
    requires '_' !in db["name"] && '_' !in db["commit"] && '_' !in db["Author"] && '_' !in db["Date"]
    ensures DbVersion(db).Ok?
    ensures Split(DbVersion(db).value, "_") == [db["name"], db["commit"], db["Author"], db["Date"]]
  {
    var vs := Lookup(db, DbVersionKeys).value;
    assert vs == [db["name"], db["commit"], db["Author"], db["Date"]];
    SplitJoin(vs, "_");
  }

  /** `med_dp`: the QC median coverage for read or alignment input (`bam`,
      `fastq`), the literal `NA` for any other input source. The source is
      looked up first, the coverage only when it is needed. */
  function MedianDepth(source: Option<string>, medianCoverage: Option<string>): (r: Result<string>)
    ensures source.None? ==> r == Err(KeyError("input_data_source"))
    ensures source.Some? && source.value !in ["bam", "fastq"] ==> r == Ok("NA")
    ensures source.Some? && source.value in ["bam", "fastq"] ==>
              (r.Ok? <==> medianCoverage.Some?) && (r.Ok? ==> r.value == medianCoverage.value) &&
              (r.Err? ==> r.error == KeyError("median_coverage"))
  {
    match source
    case None => Err(KeyError("input_data_source"))
    case Some(s) =>
      if s == "bam" || s == "fastq" then
        match medianCoverage
        case None => Err(KeyError("median_coverage"))
        case Some(c) => Ok(c)
      else Ok("NA")
  }

  /** The fixed leading columns of the resistance report. */
  const DrugTableColumns: seq<string> := ["Drug", "Genotypic Resistance", "Mutations"]

  /** The column argument of the `dr_report` table. Python's conditional
      expression binds looser than `+`, so a missing or empty `columns`
      gives no columns at all rather than the three fixed ones. */
  function DrReportColumns(columns: Option<seq<string>>): (r: seq<string>)
    ensures r == [] <==> columns.None? || columns.value == []
    ensures r != [] ==> (columns.Some? && |r| == 3 + |columns.value| &&
                         r[..3] == DrugTableColumns && r[3..] == columns.value)
  {
    if columns.Some? && columns.value != [] then DrugTableColumns + columns.value else []
  }
}
