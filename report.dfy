/** `write_text`: assembles the template variables of the text report from a
    profiling result, enriching the variant lists in place on the way. The
    collaborators whose code is not part of this model (the table formatter
    `dict_list2text`, the summary aggregator `get_summary`, the drug-list
    reader `get_drug_list`) are passed in as functions. */
module Report {
  import opened Wrappers
  import opened Rows
  import opened Variants
  import opened DrugTable
  import opened Fields

  /** The `qc` section of a result. */
  datatype Qc = Qc(medianCoverage: Option<string>,
                   geneCoverage: Option<seq<Row>>,
                   missingPositions: Option<seq<Row>>)

  /** The `spoligotype` section: its text fields and its spacer counts. */
  datatype Spoligotype = Spoligotype(fields: Row, spacers: Option<seq<Row>>)

  /** The parts of the profiling result `write_text` reads; a missing key is
      None (or false for the two variant lists, whose records are passed as
      arrays beside the result). */
  datatype ProfileResult = ProfileResult(
    id: Option<string>,
    hasDrVariants: bool,
    hasOtherVariants: bool,
    sublin: Option<string>,
    lineage: Option<seq<Row>>,
    qc: Option<Qc>,
    inputDataSource: Option<string>,
    spoligotype: Option<Spoligotype>,
    pipeline: Option<seq<Row>>,
    tbprofilerVersion: Option<string>,
    dbVersion: Option<Row>)

  /** The configuration keys `write_text` reads. */
  datatype Config = Config(drugs: Option<seq<string>>, bed: Option<string>)

  /** What `get_summary` leaves in the result for `write_text` to read. */
  datatype Summary = Summary(drugTable: seq<Row>, drtype: string)

  /** The collaborators: `dict_list2text(rows, columns, mappings, sep)` (an
      empty column list standing for "not given"), the separator it uses
      when none is passed, `get_summary` and `get_drug_list`. */
  datatype Collaborators = Collaborators(
    tableText: (seq<Row>, seq<string>, map<string, string>, string) -> string,
    defaultSep: string,
    summarise: (seq<Variant>, seq<Variant>, Config, Option<seq<string>>, real) -> Summary,
    drugList: string -> seq<string>)

  const DrVariantHeaders: map<string, string> :=
    map["genome_pos" := "Genome Position", "locus_tag" := "Locus Tag", "gene" := "Gene",
        "type" := "Variant type", "change" := "Change", "freq" := "Estimated fraction",
        "drugs.drug" := "Drug"]
  const OtherVariantHeaders: map<string, string> :=
    map["genome_pos" := "Genome Position", "locus_tag" := "Locus Tag", "gene" := "Gene",
        "type" := "Variant type", "change" := "Change", "freq" := "Estimated fraction",
        "annotation_str" := "Annotation"]
  const LineageColumns: seq<string> := ["lin", "frac", "family", "spoligotype", "rd"]
  const LineageHeaders: map<string, string> := map["lin" := "Lineage", "frac" := "Estimated fraction"]
  const CoverageColumns: seq<string> := ["gene", "locus_tag", "cutoff", "fraction"]
  const MissingColumns: seq<string> := ["gene", "locus_tag", "position", "variants", "drugs"]
  const SpoligotypeKeys: seq<string> := ["binary", "octal", "SIT", "family"]
  const SpacerColumns: seq<string> := ["name", "count"]
  const PipelineColumns: seq<string> := ["Analysis", "Program"]

  /** The template variables, grouped by the step of `write_text` that sets them. */
  const BaseKeys: set<string> := {"id", "date"}
  const ResistanceKeys: set<string> := {"dr_report", "dr_var_report", "other_var_report", "drtype"}
  const LineageVarKeys: set<string> := {"strain", "lineage_report"}
  const QcKeys: set<string> := {"med_dp", "coverage_report", "missing_report"}
  const SpoligotypeVarKeys: set<string> := {"binary", "octal", "SIT", "family", "spacers"}
  const TrailerKeys: set<string> := {"pipeline", "version", "db_version", "sep"}

  /** The template variables a successful call sets: the ones always set,
      and one group per section present in the result. */
  function TemplateKeys(res: ProfileResult): set<string>
  {
    BaseKeys + TrailerKeys
    + (if res.hasDrVariants then ResistanceKeys else {})
    + (if res.sublin.Some? then LineageVarKeys else {})
    + (if res.qc.Some? then QcKeys else {})
    + (if res.spoligotype.Some? then SpoligotypeVarKeys else {})
  }

  /** No template variable is set by two steps. */
  lemma KeyGroupsDisjoint()
    ensures BaseKeys !! ResistanceKeys && BaseKeys !! LineageVarKeys && BaseKeys !! QcKeys
    ensures BaseKeys !! SpoligotypeVarKeys && BaseKeys !! TrailerKeys
    ensures ResistanceKeys !! LineageVarKeys && ResistanceKeys !! QcKeys
    ensures ResistanceKeys !! SpoligotypeVarKeys && ResistanceKeys !! TrailerKeys
    ensures LineageVarKeys !! QcKeys && LineageVarKeys !! SpoligotypeVarKeys && LineageVarKeys !! TrailerKeys
    ensures QcKeys !! SpoligotypeVarKeys && QcKeys !! TrailerKeys
    ensures SpoligotypeVarKeys !! TrailerKeys
  {
  }

  /** A variant as the summary sees it: annotated when annotations are added. */
  function Prepared(v: Variant, addAnnotations: bool): Variant
  {
    if addAnnotations then Annotated(v) else v
  }

  function PreparedAll(s: seq<Variant>, addAnnotations: bool): seq<Variant>
  {
    seq(|s|, i requires 0 <= i < |s| => Prepared(s[i], addAnnotations))
  }

  /** The variants as the table formatter sees them: their text fields. */
  function VariantRows(s: seq<Variant>): seq<Row>
  {
    seq(|s|, i requires 0 <= i < |s| => s[i].scalars)
  }

  /** A sub-table of the QC section, or `Not available` when it is absent. */
  function OptionalTable(c: Collaborators, rows: Option<seq<Row>>, columns: seq<string>, sep: string): string
  {
    match rows
    case Some(t) => c.tableText(t, columns, map[], sep)
    case None => "Not available"
  }

  /** The summary `write_text` computes from the variant lists as they are
      after the annotation loop. */
  function SummaryOf(c: Collaborators, dr: seq<Variant>, other: seq<Variant>, conf: Config,
                     columns: Option<seq<string>>, reportingAf: real, addAnnotations: bool): Summary
  {
    c.summarise(PreparedAll(dr, addAnnotations), PreparedAll(other, addAnnotations), conf, columns, reportingAf)
  }

  /** `big` holds every variable of `part` with the same value. */
  predicate Includes(big: map<string, string>, part: map<string, string>)
  {
    forall k :: k in part ==> k in big && big[k] == part[k]
  }

  /** Adding variables with other names keeps the ones already included. */
  lemma IncludesUnion(a: map<string, string>, b: map<string, string>, p: map<string, string>)
    requires Includes(a, p) && p.Keys !! b.Keys
    ensures Includes(a + b, p) && Includes(a + b, b)
  {
  }

  /** The variables of the six steps, merged in order: each step's
      variables survive the merge, since no two steps share a name. */
  lemma MergeIncludes(base: map<string, string>, resistance: map<string, string>,
                      lineage: map<string, string>, qc: map<string, string>,
                      spoligotype: map<string, string>, trailer: map<string, string>)
    requires base.Keys <= BaseKeys && resistance.Keys <= ResistanceKeys
    requires lineage.Keys <= LineageVarKeys && qc.Keys <= QcKeys
    requires spoligotype.Keys <= SpoligotypeVarKeys && trailer.Keys <= TrailerKeys
    ensures var m := base + resistance + lineage + qc + spoligotype + trailer;
            && Includes(m, base) && Includes(m, resistance) && Includes(m, lineage)
            && Includes(m, qc) && Includes(m, spoligotype) && Includes(m, trailer)
  {
    KeyGroupsDisjoint();
    var m1 := base + resistance;
    IncludesUnion(base, resistance, base);
    var m2 := m1 + lineage;
    IncludesUnion(m1, lineage, base);
    IncludesUnion(m1, lineage, resistance);
    var m3 := m2 + qc;
    IncludesUnion(m2, qc, base);
    IncludesUnion(m2, qc, resistance);
    IncludesUnion(m2, qc, lineage);
    var m4 := m3 + spoligotype;
    IncludesUnion(m3, spoligotype, base);
    IncludesUnion(m3, spoligotype, resistance);
    IncludesUnion(m3, spoligotype, lineage);
    IncludesUnion(m3, spoligotype, qc);
    IncludesUnion(m4, trailer, base);
    IncludesUnion(m4, trailer, resistance);
    IncludesUnion(m4, trailer, lineage);
    IncludesUnion(m4, trailer, qc);
    IncludesUnion(m4, trailer, spoligotype);
  }

  /** Lines 119-121: the strain and lineage table, when the result has a
      sub-lineage call. */
  function LineageVars(res: ProfileResult, c: Collaborators, sep: string): (r: Result<map<string, string>>)
    ensures res.sublin.None? ==> r == Ok(map[])
    ensures res.sublin.Some? ==> (r.Ok? <==> res.lineage.Some?)
    ensures res.sublin.Some? && res.lineage.None? ==> r == Err(KeyError("lineage"))
    ensures r.Ok? && res.sublin.Some? ==>
              && r.value.Keys == LineageVarKeys
              && r.value["strain"] == res.sublin.value
              && r.value["lineage_report"] == c.tableText(res.lineage.value, LineageColumns, LineageHeaders, sep)
  {
    match res.sublin
    case None => Ok(map[])
    case Some(strain) =>
      match res.lineage
      case None => Err(KeyError("lineage"))
      case Some(rows) =>
        Ok(map["strain" := strain, "lineage_report" := c.tableText(rows, LineageColumns, LineageHeaders, sep)])
  }

  /** Lines 123-126: median depth and the two QC tables, when the result has
      a QC section; an absent QC table reads `Not available`. */
  function QcVars(res: ProfileResult, c: Collaborators, sep: string): (r: Result<map<string, string>>)
    ensures res.qc.None? ==> r == Ok(map[])
    ensures res.qc.Some? ==> (r.Ok? <==> MedianDepth(res.inputDataSource, res.qc.value.medianCoverage).Ok?)
    ensures res.qc.Some? && r.Err? ==> MedianDepth(res.inputDataSource, res.qc.value.medianCoverage) == Err(r.error)
    ensures r.Ok? && res.qc.Some? ==>
              && r.value.Keys == QcKeys
              && MedianDepth(res.inputDataSource, res.qc.value.medianCoverage) == Ok(r.value["med_dp"])
              && r.value["coverage_report"] == OptionalTable(c, res.qc.value.geneCoverage, CoverageColumns, sep)
              && r.value["missing_report"] == OptionalTable(c, res.qc.value.missingPositions, MissingColumns, sep)
    ensures res.qc.Some? && res.inputDataSource.Some? && res.inputDataSource.value !in ["bam", "fastq"] ==>
              r.Ok? && r.value["med_dp"] == "NA"
  {
    match res.qc
    case None => Ok(map[])
    case Some(qc) =>
      match MedianDepth(res.inputDataSource, qc.medianCoverage)
      case Err(e) => Err(e)
      case Ok(medDp) =>
        Ok(map["med_dp" := medDp,
               "coverage_report" := OptionalTable(c, qc.geneCoverage, CoverageColumns, sep),
               "missing_report" := OptionalTable(c, qc.missingPositions, MissingColumns, sep)])
  }

  /** Lines 127-132: the spoligotype fields and spacer table, when the result
      has a spoligotype. The spacer table is the one table built without the
      caller's separator. */
  function SpoligotypeVars(res: ProfileResult, c: Collaborators): (r: Result<map<string, string>>)
    ensures res.spoligotype.None? ==> r == Ok(map[])
    ensures res.spoligotype.Some? ==>
              (r.Ok? <==> Lookup(res.spoligotype.value.fields, SpoligotypeKeys).Ok? &&
                          res.spoligotype.value.spacers.Some?)
    ensures res.spoligotype.Some? && Lookup(res.spoligotype.value.fields, SpoligotypeKeys).Err? ==>
              r == Err(Lookup(res.spoligotype.value.fields, SpoligotypeKeys).error)
    ensures (res.spoligotype.Some? && Lookup(res.spoligotype.value.fields, SpoligotypeKeys).Ok? &&
             res.spoligotype.value.spacers.None?) ==> r == Err(KeyError("spacers"))
    ensures r.Ok? && res.spoligotype.Some? ==>
              && r.value.Keys == SpoligotypeVarKeys
              && Lookup(res.spoligotype.value.fields, SpoligotypeKeys) ==
                   Ok([r.value["binary"], r.value["octal"], r.value["SIT"], r.value["family"]])
              && r.value["spacers"] == c.tableText(res.spoligotype.value.spacers.value, SpacerColumns, map[], c.defaultSep)
  {
    match res.spoligotype
    case None => Ok(map[])
    case Some(sp) =>
      match Lookup(sp.fields, SpoligotypeKeys)
      case Err(e) => Err(e)
      case Ok(vs) =>
        assert |vs| == |SpoligotypeKeys| == 4 && vs == [vs[0], vs[1], vs[2], vs[3]];
        match sp.spacers
        case None => Err(KeyError("spacers"))
        case Some(spacers) =>
          Ok(map["binary" := vs[0], "octal" := vs[1], "SIT" := vs[2], "family" := vs[3],
                 "spacers" := c.tableText(spacers, SpacerColumns, map[], c.defaultSep)])
  }

  /** Lines 136-143: the pipeline table, tool and database versions, and the
      display separator, set for every report. */
  function TrailerVars(res: ProfileResult, c: Collaborators, sep: string): (r: Result<map<string, string>>)
    ensures r.Ok? <==> res.pipeline.Some? && res.tbprofilerVersion.Some? && res.dbVersion.Some? &&
                       DbVersion(res.dbVersion.value).Ok?
    ensures res.pipeline.None? ==> r == Err(KeyError("pipeline"))
    ensures res.pipeline.Some? && res.tbprofilerVersion.None? ==> r == Err(KeyError("tbprofiler_version"))
    ensures res.pipeline.Some? && res.tbprofilerVersion.Some? && res.dbVersion.None? ==>
              r == Err(KeyError("db_version"))
    ensures (res.pipeline.Some? && res.tbprofilerVersion.Some? && res.dbVersion.Some? &&
             DbVersion(res.dbVersion.value).Err?) ==> r == Err(DbVersion(res.dbVersion.value).error)
    ensures r.Ok? ==>
              && r.value.Keys == TrailerKeys
              && r.value["pipeline"] == c.tableText(res.pipeline.value, PipelineColumns, map[], sep)
              && r.value["version"] == res.tbprofilerVersion.value
              && DbVersion(res.dbVersion.value) == Ok(r.value["db_version"])
              && r.value["sep"] == DisplaySep(sep)
  {
    match (res.pipeline, res.tbprofilerVersion, res.dbVersion)
    case (None, _, _) => Err(KeyError("pipeline"))
    case (Some(_), None, _) => Err(KeyError("tbprofiler_version"))
    case (Some(_), Some(_), None) => Err(KeyError("db_version"))
    case (Some(pipeline), Some(version), Some(db)) =>
      match DbVersion(db)
      case Err(e) => Err(e)
      case Ok(dbVersion) =>
        Ok(map["pipeline" := c.tableText(pipeline, PipelineColumns, map[], sep),
               "version" := version, "db_version" := dbVersion, "sep" := DisplaySep(sep)])
  }

  /** Lines 117-145 up to rendering: the variables of a report whose
      resistance step (if any) produced `resistance`. The sections are
      evaluated in the order of the source, and the first one that raises
      aborts the report with its exception. */
  function Assemble(res: ProfileResult, c: Collaborators, sep: string, now: string,
                    resistance: map<string, string>): (r: Result<map<string, string>>)
    requires res.id.Some?
    ensures r.Ok? <==> && LineageVars(res, c, sep).Ok? && QcVars(res, c, sep).Ok?
                       && SpoligotypeVars(res, c).Ok? && TrailerVars(res, c, sep).Ok?
    ensures LineageVars(res, c, sep).Err? ==> r == Err(LineageVars(res, c, sep).error)
    ensures LineageVars(res, c, sep).Ok? && QcVars(res, c, sep).Err? ==> r == Err(QcVars(res, c, sep).error)
    ensures LineageVars(res, c, sep).Ok? && QcVars(res, c, sep).Ok? && SpoligotypeVars(res, c).Err? ==>
              r == Err(SpoligotypeVars(res, c).error)
    ensures (LineageVars(res, c, sep).Ok? && QcVars(res, c, sep).Ok? && SpoligotypeVars(res, c).Ok? &&
             TrailerVars(res, c, sep).Err?) ==> r == Err(TrailerVars(res, c, sep).error)
    ensures res.pipeline.None? ==> r.Err?
  {
    match (LineageVars(res, c, sep), QcVars(res, c, sep), SpoligotypeVars(res, c), TrailerVars(res, c, sep))
    case (Err(e), _, _, _) => Err(e)
    case (Ok(_), Err(e), _, _) => Err(e)
    case (Ok(_), Ok(_), Err(e), _) => Err(e)
    case (Ok(_), Ok(_), Ok(_), Err(e)) => Err(e)
    case (Ok(lineage), Ok(qc), Ok(spoligotype), Ok(trailer)) =>
      Ok(map["id" := res.id.value, "date" := now] + resistance + lineage + qc + spoligotype + trailer)
  }

  /** Whether the sections fail, and with what, does not depend on the
      resistance variables. */
  lemma AssembleErrorIndependent(res: ProfileResult, c: Collaborators, sep: string, now: string,
                                 resistance: map<string, string>)
    requires res.id.Some?
    ensures Assemble(res, c, sep, now, resistance).Err? <==> Assemble(res, c, sep, now, map[]).Err?
    ensures Assemble(res, c, sep, now, resistance).Err? ==>
              Assemble(res, c, sep, now, resistance) == Assemble(res, c, sep, now, map[])
  {
  }

  /** A report that assembles sets exactly the variables of its sections,
      besides the identifier and the date. */
  lemma AssembleKeys(res: ProfileResult, c: Collaborators, sep: string, now: string,
                     resistance: map<string, string>)
    requires res.id.Some?
    requires resistance.Keys == (if res.hasDrVariants then ResistanceKeys else {})
    requires Assemble(res, c, sep, now, resistance).Ok?
    ensures Assemble(res, c, sep, now, resistance).value.Keys == TemplateKeys(res)
  {
  }

  /** Each variable of a report that assembles holds the value its section
      computed: no section overwrites another's. */
  lemma AssembleValues(res: ProfileResult, c: Collaborators, sep: string, now: string,
                       resistance: map<string, string>)
    requires res.id.Some?
    requires resistance.Keys == (if res.hasDrVariants then ResistanceKeys else {})
    requires Assemble(res, c, sep, now, resistance).Ok?
    ensures var m := Assemble(res, c, sep, now, resistance).value;
            && m["id"] == res.id.value && m["date"] == now
            && Includes(m, resistance)
            && Includes(m, LineageVars(res, c, sep).value)
            && Includes(m, QcVars(res, c, sep).value)
            && Includes(m, SpoligotypeVars(res, c).value)
            && Includes(m, TrailerVars(res, c, sep).value)
  {
    var base := map["id" := res.id.value, "date" := now];
    var lineage, qc := LineageVars(res, c, sep).value, QcVars(res, c, sep).value;
    var spoligotype, trailer := SpoligotypeVars(res, c).value, TrailerVars(res, c, sep).value;
    MergeIncludes(base, resistance, lineage, qc, spoligotype, trailer);
    assert "id" in base && "date" in base;
  }

  /** The drug table of line 109, for a configuration that names a bed file
      and drugs: selected from the summary of the variants as the annotation
      loop left them. */
  function Selection(c: Collaborators, dr0: seq<Variant>, other0: seq<Variant>, conf: Config,
                     columns: Option<seq<string>>, reportingAf: real, addAnnotations: bool): Result<seq<Row>>
    requires conf.bed.Some? && conf.drugs.Some?
  {
    FilterDrugTable(SummaryOf(c, dr0, other0, conf, columns, reportingAf, addAnnotations).drugTable,
                    conf.drugs.value, c.drugList(conf.bed.value))
  }

  /** The exception lines 98-116 raise, if any, in source order: the missing
      other variants of the annotation loop, the missing `bed` and `drugs`
      configuration, the drug-table selection's, the drug loop's, and the
      missing other variants of the last table. */
  function ResistanceError(res: ProfileResult, dr0: seq<Variant>, other0: seq<Variant>, conf: Config,
                           c: Collaborators, columns: Option<seq<string>>, reportingAf: real,
                           addAnnotations: bool): Option<Error>
  {
    if addAnnotations && !res.hasOtherVariants then Some(KeyError("other_variants"))
    else if conf.bed.None? then Some(KeyError("bed"))
    else if conf.drugs.None? then Some(KeyError("drugs"))
    else
      match Selection(c, dr0, other0, conf, columns, reportingAf, addAnnotations)
      case Err(e) => Some(e)
      case Ok(_) =>
        match FlattenError(PreparedAll(dr0, addAnnotations))
        case Some(e) => Some(e)
        case None => if res.hasOtherVariants then None else Some(KeyError("other_variants"))
  }

  /** The resistance section succeeds exactly when the other variants, the
      bed file and the drugs are present, the drug table selects, and every
      resistance variant (annotated when asked) has its drug names. */
  lemma ResistanceSucceeds(res: ProfileResult, dr0: seq<Variant>, other0: seq<Variant>, conf: Config,
                           c: Collaborators, columns: Option<seq<string>>, reportingAf: real,
                           addAnnotations: bool)
    ensures ResistanceError(res, dr0, other0, conf, c, columns, reportingAf, addAnnotations).None? <==>
              && res.hasOtherVariants && conf.bed.Some? && conf.drugs.Some?
              && Selection(c, dr0, other0, conf, columns, reportingAf, addAnnotations).Ok?
              && forall i :: 0 <= i < |dr0| ==> WithDrugField(Prepared(dr0[i], addAnnotations)).Ok?
  {
    var p := PreparedAll(dr0, addAnnotations);
    assert forall i :: 0 <= i < |dr0| ==> p[i] == Prepared(dr0[i], addAnnotations);
  }

  /** A configured drug, in the drug list, that matches no row of a
      well-formed summary table fails the resistance section with
      IndexError; a table row without `Drug` fails it with KeyError `Drug`
      as soon as any drug is selected. */
  lemma ResistanceSelectionErrors(res: ProfileResult, dr0: seq<Variant>, other0: seq<Variant>, conf: Config,
                                  c: Collaborators, columns: Option<seq<string>>, reportingAf: real,
                                  addAnnotations: bool, d: string)
    requires addAnnotations ==> res.hasOtherVariants
    requires conf.bed.Some? && conf.drugs.Some?
    ensures var table := SummaryOf(c, dr0, other0, conf, columns, reportingAf, addAnnotations).drugTable;
            var drugList := c.drugList(conf.bed.value);
            && (AllHaveDrug(table) && d in conf.drugs.value && d in drugList &&
                (forall j :: 0 <= j < |table| ==> !Matches(table[j], d)) ==>
                  ResistanceError(res, dr0, other0, conf, c, columns, reportingAf, addAnnotations) == Some(IndexError))
            && (!AllHaveDrug(table) && Selected(conf.drugs.value, drugList) != [] ==>
                  ResistanceError(res, dr0, other0, conf, c, columns, reportingAf, addAnnotations) == Some(KeyError("Drug")))
  {
    var table := SummaryOf(c, dr0, other0, conf, columns, reportingAf, addAnnotations).drugTable;
    var drugList := c.drugList(conf.bed.value);
    if AllHaveDrug(table) && d in conf.drugs.value && d in drugList &&
       (forall j :: 0 <= j < |table| ==> !Matches(table[j], d)) {
      MissingDrugFails(table, conf.drugs.value, drugList, d);
    }
    if !AllHaveDrug(table) && Selected(conf.drugs.value, drugList) != [] {
      RowWithoutDrugFails(table, conf.drugs.value, drugList);
    }
  }

  /** Lines 99-104: when annotations are added, every variant of both lists
      gets its `annotation_str`, once even when the two lists are the same. */
  method AnnotateLists(dr: array<Variant>, other: array<Variant>, addAnnotations: bool)
    modifies dr, other
    ensures dr[..] == PreparedAll(old(dr[..]), addAnnotations)
    ensures other[..] == PreparedAll(old(other[..]), addAnnotations)
  {
    ghost var dr0 := dr[..];
    if addAnnotations {
      AnnotateEach(dr);
      AnnotateEach(other);
      if other == dr {
        forall i | 0 <= i < dr.Length ensures dr[i] == Annotated(dr0[i]) {
          AnnotatedIdempotent(dr0[i]);
        }
      }
    }
  }

  /** Lines 110-116, once the drug table is selected: the drug loop over the
      resistance variants, as the annotation loop left them from `dr0`, then
      the four variables. */
  method ResistanceTables(res: ProfileResult, dr: array<Variant>, other: array<Variant>,
                          ghost dr0: seq<Variant>, addAnnotations: bool, table: seq<Row>, drtype: string,
                          c: Collaborators, columns: Option<seq<string>>, sep: string)
    returns (out: Result<map<string, string>>)
    requires dr[..] == PreparedAll(dr0, addAnnotations)
    modifies dr
    ensures var e := FlattenError(PreparedAll(dr0, addAnnotations));
            && (e.Some? ==> out == Err(e.value))
            && (e.None? && !res.hasOtherVariants ==> out == Err(KeyError("other_variants")))
            && (e.None? && res.hasOtherVariants ==> out.Ok?)
    ensures var p := PreparedAll(dr0, addAnnotations);
            && (forall i :: 0 <= i < FirstFailure(p) ==> WithDrugField(p[i]) == Ok(dr[i]))
            && (forall i :: FirstFailure(p) <= i < dr.Length ==> dr[i] == p[i])
    ensures out.Ok? ==>
              && out.value.Keys == ResistanceKeys
              && out.value["dr_report"] == c.tableText(table, DrReportColumns(columns), map[], sep)
              && out.value["drtype"] == drtype
              && out.value["dr_var_report"] == c.tableText(VariantRows(dr[..]), [], DrVariantHeaders, sep)
              && out.value["other_var_report"] == c.tableText(VariantRows(other[..]), [], OtherVariantHeaders, sep)
  {
    var err := FlattenDrugs(dr);
    if err.Some? {
      return Err(err.value);
    }
    var vars := map["dr_report" := c.tableText(table, DrReportColumns(columns), map[], sep)];
    vars := vars["dr_var_report" := c.tableText(VariantRows(dr[..]), [], DrVariantHeaders, sep)];
    if !res.hasOtherVariants {
      return Err(KeyError("other_variants"));
    }
    vars := vars["other_var_report" := c.tableText(VariantRows(other[..]), [], OtherVariantHeaders, sep)];
    vars := vars["drtype" := drtype];
    return Ok(vars);
  }

  /** Lines 98-116: the resistance section, for a result with resistance
      variants. Annotates the variants (when asked to), selects the drug
      table, adds the `drug` field to every resistance variant and builds
      the three resistance tables and the resistance type. */
  method ResistanceVars(res: ProfileResult, dr: array<Variant>, other: array<Variant>, conf: Config,
                        c: Collaborators, columns: Option<seq<string>>, reportingAf: real, sep: string,
                        addAnnotations: bool)
    returns (out: Result<map<string, string>>)
    modifies dr, other
    // Failures, in the order the source raises them.
    ensures out.Err? <==> ResistanceError(res, old(dr[..]), old(other[..]), conf, c, columns, reportingAf, addAnnotations).Some?
    ensures out.Err? ==> out.error == ResistanceError(res, old(dr[..]), old(other[..]), conf, c, columns, reportingAf, addAnnotations).value
    ensures addAnnotations && !res.hasOtherVariants ==> out == Err(KeyError("other_variants"))
    ensures (addAnnotations ==> res.hasOtherVariants) && conf.bed.None? ==> out == Err(KeyError("bed"))
    ensures (addAnnotations ==> res.hasOtherVariants) && conf.bed.Some? && conf.drugs.None? ==>
              out == Err(KeyError("drugs"))
    ensures (addAnnotations ==> res.hasOtherVariants) && conf.bed.Some? && conf.drugs.Some? &&
            Selection(c, old(dr[..]), old(other[..]), conf, columns, reportingAf, addAnnotations).Err? ==>
              out == Err(Selection(c, old(dr[..]), old(other[..]), conf, columns, reportingAf, addAnnotations).error)
    // Success.
    ensures out.Ok? ==> res.hasOtherVariants && conf.bed.Some? && conf.drugs.Some?
    ensures out.Ok? ==>
              var s := SummaryOf(c, old(dr[..]), old(other[..]), conf, columns, reportingAf, addAnnotations);
              var t := FilterDrugTable(s.drugTable, conf.drugs.value, c.drugList(conf.bed.value));
              && t.Ok?
              && out.value.Keys == ResistanceKeys
              && out.value["dr_report"] == c.tableText(t.value, DrReportColumns(columns), map[], sep)
              && out.value["drtype"] == s.drtype
              && out.value["dr_var_report"] == c.tableText(VariantRows(dr[..]), [], DrVariantHeaders, sep)
              && out.value["other_var_report"] == c.tableText(VariantRows(other[..]), [], OtherVariantHeaders, sep)
    ensures out.Ok? ==>
              forall i :: 0 <= i < dr.Length ==> WithDrugField(Prepared(old(dr[i]), addAnnotations)) == Ok(dr[i])
    ensures out.Ok? && other != dr ==>
              forall i :: 0 <= i < other.Length ==> other[i] == Prepared(old(other[i]), addAnnotations)
    // The variant lists after a failure.
    ensures addAnnotations && !res.hasOtherVariants ==> dr[..] == old(dr[..]) && other[..] == old(other[..])
    ensures (addAnnotations ==> res.hasOtherVariants) &&
            (conf.bed.None? || conf.drugs.None? ||
             Selection(c, old(dr[..]), old(other[..]), conf, columns, reportingAf, addAnnotations).Err?) ==>
              dr[..] == PreparedAll(old(dr[..]), addAnnotations) &&
              other[..] == PreparedAll(old(other[..]), addAnnotations)
    ensures (addAnnotations ==> res.hasOtherVariants) && conf.bed.Some? && conf.drugs.Some? &&
            Selection(c, old(dr[..]), old(other[..]), conf, columns, reportingAf, addAnnotations).Ok? ==>
              var p := PreparedAll(old(dr[..]), addAnnotations);
              && (forall i :: 0 <= i < FirstFailure(p) ==> WithDrugField(p[i]) == Ok(dr[i]))
              && (forall i :: FirstFailure(p) <= i < dr.Length ==> dr[i] == p[i])
    ensures (addAnnotations ==> res.hasOtherVariants) && other != dr ==>
              other[..] == PreparedAll(old(other[..]), addAnnotations)
  {
    ghost var dr0, other0 := dr[..], other[..];
    if addAnnotations && !res.hasOtherVariants {
      return Err(KeyError("other_variants"));
    }
    AnnotateLists(dr, other, addAnnotations);
    var summary := c.summarise(dr[..], other[..], conf, columns, reportingAf);
    if conf.bed.None? {
      return Err(KeyError("bed"));
    }
    var drugList := c.drugList(conf.bed.value);
    if conf.drugs.None? {
      return Err(KeyError("drugs"));
    }
    var table := FilterDrugTable(summary.drugTable, conf.drugs.value, drugList);
    if table.Err? {
      return Err(table.error);
    }
    ghost var preparedOther := other[..];
    out := ResistanceTables(res, dr, other, dr0, addAnnotations, table.value, summary.drtype, c, columns, sep);
    assert other != dr ==> other[..] == preparedOther;
  }

  /** `write_text` up to rendering: the map of template variables, or the
      exception that aborts the report. `now` is the wall-clock date. */
  method WriteText(res: ProfileResult, dr: array<Variant>, other: array<Variant>, conf: Config,
                   c: Collaborators, columns: Option<seq<string>>, reportingAf: real, sep: string,
                   addAnnotations: bool, now: string)
    returns (out: Result<map<string, string>>)
    modifies dr, other
    // Failures.
    ensures res.id.None? ==> out == Err(KeyError("id"))
    ensures res.id.Some? && !res.hasDrVariants ==> out == Assemble(res, c, sep, now, map[])
    ensures res.id.Some? && res.hasDrVariants ==>
              var e := ResistanceError(res, old(dr[..]), old(other[..]), conf, c, columns, reportingAf, addAnnotations);
              && (e.Some? ==> out == Err(e.value))
              && (e.None? ==> (out.Ok? <==> Assemble(res, c, sep, now, map[]).Ok?))
              && (e.None? && out.Err? ==> out == Assemble(res, c, sep, now, map[]))
    ensures res.id.Some? && res.hasDrVariants && (addAnnotations ==> res.hasOtherVariants) &&
            conf.bed.Some? && conf.drugs.Some? &&
            Selection(c, old(dr[..]), old(other[..]), conf, columns, reportingAf, addAnnotations).Err? ==>
              out == Err(Selection(c, old(dr[..]), old(other[..]), conf, columns, reportingAf, addAnnotations).error)
    ensures out.Ok? ==> && res.id.Some?
                        && LineageVars(res, c, sep).Ok? && QcVars(res, c, sep).Ok?
                        && SpoligotypeVars(res, c).Ok? && TrailerVars(res, c, sep).Ok?
    ensures out.Ok? && res.hasDrVariants ==> res.hasOtherVariants && conf.bed.Some? && conf.drugs.Some?
    // Which variables are set, and the ones each section sets.
    ensures out.Ok? ==> out.value.Keys == TemplateKeys(res)
    ensures out.Ok? ==> out.value["id"] == res.id.value && out.value["date"] == now
    ensures out.Ok? ==> && Includes(out.value, LineageVars(res, c, sep).value)
                        && Includes(out.value, QcVars(res, c, sep).value)
                        && Includes(out.value, SpoligotypeVars(res, c).value)
                        && Includes(out.value, TrailerVars(res, c, sep).value)
    // The resistance section and the variant lists.
    ensures out.Ok? && res.hasDrVariants ==>
              var s := SummaryOf(c, old(dr[..]), old(other[..]), conf, columns, reportingAf, addAnnotations);
              var t := FilterDrugTable(s.drugTable, conf.drugs.value, c.drugList(conf.bed.value));
              && t.Ok?
              && out.value["dr_report"] == c.tableText(t.value, DrReportColumns(columns), map[], sep)
              && out.value["drtype"] == s.drtype
              && out.value["dr_var_report"] == c.tableText(VariantRows(dr[..]), [], DrVariantHeaders, sep)
              && out.value["other_var_report"] == c.tableText(VariantRows(other[..]), [], OtherVariantHeaders, sep)
    ensures out.Ok? && res.hasDrVariants ==>
              forall i :: 0 <= i < dr.Length ==> WithDrugField(Prepared(old(dr[i]), addAnnotations)) == Ok(dr[i])
    ensures out.Ok? && res.hasDrVariants && other != dr ==>
              forall i :: 0 <= i < other.Length ==> other[i] == Prepared(old(other[i]), addAnnotations)
    ensures !res.hasDrVariants ==> dr[..] == old(dr[..]) && other[..] == old(other[..])
  {
    if res.id.None? {
      return Err(KeyError("id"));
    }
    var base := map["id" := res.id.value, "date" := now];
    var resistance: map<string, string> := map[];
    if res.hasDrVariants {
      var r := ResistanceVars(res, dr, other, conf, c, columns, reportingAf, sep, addAnnotations);
      if r.Err? {
        return Err(r.error);
      }
      resistance := r.value;
    }
    out := Assemble(res, c, sep, now, resistance);
    AssembleErrorIndependent(res, c, sep, now, resistance);
    if out.Ok? {
      AssembleKeys(res, c, sep, now, resistance);
      AssembleValues(res, c, sep, now, resistance);
    }
  }
}
