# TBProfiler text report, modelled in Dafny

This project models the text-report writer of TBProfiler (`tbprofiler/text.py`).
That writer turns the profiling result of one *Mycobacterium tuberculosis* sample
into the variables of a report template. It covers:

- `lineagejson2text`, which writes one tab-separated line per lineage call;
- `stringify_annotations`, which writes a variant's annotations as `key=val` items
  joined by `|`, with the annotations joined by `;`;
- `write_text` up to rendering:
  - the two loops that enrich the variant records in place (`annotation_str` and `drug`);
  - the drug-table selection (configured drugs that are in the bed-derived drug list,
    each matched to its first table row ignoring case);
  - the resistance, lineage, QC, spoligotype, pipeline and version sections;
  - the display separator.

A Python exception is modelled as the error case of a `Result`:
`KeyError(key)` for a missing dictionary key and `IndexError` for `[0]` on an empty
list. When several lookups could fail, the model reports the first one in Python's
evaluation order. Dictionaries of text fields are `map<string, string>`. The variant
lists, which the source mutates in place, are arrays.

Three collaborators are passed in as functions:

- `dict_list2text`, the table formatter;
- `get_summary`, the summary aggregator;
- `get_drug_list`, the drug-list reader.

Whatever those collaborators compute, the model proves:

- the round trips that make each text format readable:
  - annotations parse back from their string;
  - drug names split back out of a variant's `drug` field;
  - the database version splits back into its four fields;
  - the lineage report splits into one line per call, and each line splits into its
    five fields;
- the separator counts;
- which variables a report sets, and that no section overwrites another's;
- the exception each step raises, in the order the source raises them: the missing
  key of every subscript, `IndexError` for a configured drug with no table row, and
  the first failure of the drug loop;
- that the report is produced exactly when no step raises;
- the state of the variant arrays after the loops, including when the two lists are
  the same array.

Modules: `Wrappers` (Option, Result, Error), `Strings` (join, split, count, ASCII
upper-casing), `Rows` (subscripts on records), `Annotations`, `Lineage`,
`DrugTable`, `Fields`, `Variants` and `Report`.

## Model

| member | source | states |
|---|---|---|
| Strings.Join | tbprofiler/text.py:92 | joining n parts gives their total length plus n - 1 separators; no parts give the empty string |
| Strings.SplitJoin | tbprofiler/text.py:91-92 | splitting a join on its separator gives back the parts, when no part holds the separator's first character |
| Strings.JoinCount | tbprofiler/text.py:92 | joining n parts free of a one-character separator gives exactly n - 1 of that character |
| Strings.Upper | tbprofiler/text.py:109 | `upper()`: same length, no lower-case letter left, every changed character is a lower-case letter moved to its capital |
| Rows.Lookup | tbprofiler/text.py:128-131 | successive subscripts succeed iff every key is present, return the values in key order, and otherwise raise KeyError for the first missing key |
| Rows.Column | tbprofiler/text.py:111 | `[d[key] for d in rows]` succeeds iff every row has the key, with the values in row order; otherwise KeyError for that key |
| Annotations.StringifyAnnotations | tbprofiler/text.py:88-92 | no annotations give the empty string |
| Annotations.StringifyRoundTrip | tbprofiler/text.py:88-92 | the string of non-empty annotations whose keys hold no `=`, `\|` or `;`, and whose values hold no `\|` or `;`, parses back to the same annotations, items in order |
| Annotations.SemicolonCount | tbprofiler/text.py:92 | n annotations free of `;` give exactly n - 1 semicolons |
| Annotations.SingleAnnotationExample | tbprofiler/text.py:88-92 | `[{"a": "1", "b": "2"}]` gives `a=1\|b=2` |
| Annotations.EmptyAnnotationIndistinct | tbprofiler/text.py:88-92 | no annotations and one empty annotation both give the empty string |
| Lineage.LineageLines | tbprofiler/text.py:9-11 | the lines succeed iff every record formats, one line per record, in order |
| Lineage.LineageJsonToText | tbprofiler/text.py:8-12 | no records give the empty report |
| Lineage.LineageTextOk | tbprofiler/text.py:11 | the report fails exactly when some record lacks one of lin, family, spoligotype, rd, frac |
| Lineage.LineFields | tbprofiler/text.py:11 | a line of clean fields holds no newline and splits on tabs into lin, family, spoligotype, rd, frac |
| Lineage.TextSplitsIntoLines | tbprofiler/text.py:12 | the joined report splits on newlines into its lines and has one newline fewer than lines |
| Lineage.LineageTextLines | tbprofiler/text.py:8-12 | the report of clean records has one line per record, in order, each splitting into that record's five fields in format order, and no trailing newline |
| DrugTable.Selected | tbprofiler/text.py:109 | a drug is selected iff it is configured and in the drug list (exact match); never more than the configured drugs |
| DrugTable.MatchingRows | tbprofiler/text.py:109 | succeeds iff every row has `Drug` (else KeyError `Drug`); empty iff no row matches; its head is the first case-insensitive match |
| DrugTable.FirstMatch | tbprofiler/text.py:109 | succeeds iff every row has `Drug` and some row matches, giving the first match; IndexError when none matches |
| DrugTable.FilterDrugTable | tbprofiler/text.py:109 | succeeds iff every selected drug has a first match, with one row per selected drug |
| DrugTable.FilterPicksFirstMatches | tbprofiler/text.py:109 | entry i of the selection is the first match of selected drug i |
| DrugTable.FilterDrugTableSpec | tbprofiler/text.py:109 | the selection has one row per selected drug, in configured order, each the first row whose `Drug` equals that drug ignoring case |
| DrugTable.MissingDrugFails | tbprofiler/text.py:109 | a selected drug with no matching row fails the whole selection with IndexError instead of being skipped |
| DrugTable.RowWithoutDrugFails | tbprofiler/text.py:109 | a row without `Drug` fails the selection with KeyError `Drug` once any drug is selected |
| DrugTable.CaseExample | tbprofiler/text.py:109 | row `RIFAMPICIN` is chosen for configured `rifampicin`; configured `Rifampicin` is dropped when the drug list spells it `rifampicin` |
| Fields.DisplaySep | tbprofiler/text.py:140-143 | `": "` iff the separator is a tab, `","` iff it is not |
| Fields.DbVersion | tbprofiler/text.py:138-139 | succeeds iff name, commit, Author and Date are all present; otherwise KeyError for the first missing one in that order (`name` first) |
| Fields.DbVersionParts | tbprofiler/text.py:139 | the version string splits on `_` into name, commit, author and date when none holds an underscore |
| Fields.MedianDepth | tbprofiler/text.py:124 | KeyError `input_data_source` when the source is absent; `NA` for any source but bam and fastq; otherwise the median coverage, or KeyError `median_coverage` when it is absent |
| Fields.DrReportColumns | tbprofiler/text.py:113 | no columns at all iff `columns` is missing or empty; otherwise Drug, Genotypic Resistance, Mutations followed by the given columns |
| Variants.Annotated | tbprofiler/text.py:101-104 | sets `annotation_str` to the stringified annotations, or to the empty string without them; nothing else of the variant changes |
| Variants.AnnotatedIdempotent | tbprofiler/text.py:100 | annotating a variant twice equals annotating it once |
| Variants.AnnotationStrDecodes | tbprofiler/text.py:102 | a variant's `annotation_str` parses back to its annotations |
| Variants.AnnotateEach | tbprofiler/text.py:100-104 | after the loop every variant is its annotated old self |
| Variants.DrugText | tbprofiler/text.py:111 | KeyError `drugs` without a drug list; succeeds iff every drug entry has `drug`, else KeyError `drug`; an empty drug list gives the empty string |
| Variants.DrugTextNames | tbprofiler/text.py:111 | the `drug` field splits on `"; "` into the drug names in list order |
| Variants.WithDrugField | tbprofiler/text.py:111 | sets `drug` to the joined names, or raises what they raise; nothing else of the variant changes |
| Variants.FirstFailure | tbprofiler/text.py:110-111 | the position where the loop stops: every variant before it gets its names, and the one at it (if any) raises |
| Variants.FlattenError | tbprofiler/text.py:110-111 | the loop raises nothing iff every variant has its names; otherwise it raises the error of the variant at the first failure |
| Variants.FlattenDrugs | tbprofiler/text.py:110-111 | returns exactly the loop's exception; the variants before the first failure carry their `drug` field, the rest (all of them on success: none) are untouched |
| Report.KeyGroupsDisjoint | tbprofiler/text.py:96-143 | no template variable is set by two steps of the report |
| Report.LineageVars | tbprofiler/text.py:119-121 | sets nothing without `sublin`; otherwise strain and lineage table, with KeyError `lineage` when the calls are absent |
| Report.QcVars | tbprofiler/text.py:123-126 | sets nothing without `qc`; otherwise median depth (failing with its error), and the coverage and missing-position tables or `Not available`; `NA` depth for non-read input |
| Report.SpoligotypeVars | tbprofiler/text.py:127-132 | sets nothing without a spoligotype; otherwise KeyError for the first missing of binary, octal, SIT, family, then KeyError `spacers`; on success those four and the spacer table with the formatter's default separator |
| Report.TrailerVars | tbprofiler/text.py:136-143 | succeeds iff pipeline, tool version and a complete database version are present; KeyError `pipeline`, `tbprofiler_version`, `db_version` or the version field's in that order; sets the pipeline table, the versions and the display separator |
| Report.Assemble | tbprofiler/text.py:117-143 | succeeds iff every section succeeds; otherwise fails with the error of the first failing section in the order lineage, QC, spoligotype, trailer |
| Report.AssembleKeys | tbprofiler/text.py:117-143 | a report sets id, date, the trailer and exactly the sections its result holds |
| Report.AssembleValues | tbprofiler/text.py:117-143 | every variable keeps the value its section computed, besides id and date |
| Report.AssembleErrorIndependent | tbprofiler/text.py:117-143 | whether the sections after the resistance step fail, and with what, does not depend on the resistance variables |
| Report.AnnotateLists | tbprofiler/text.py:99-104 | with annotations asked for, both lists end annotated once each, also when they are the same list; otherwise untouched |
| Report.ResistanceSucceeds | tbprofiler/text.py:98-116 | the resistance step raises nothing iff other variants, `bed` and `drugs` are present, the drug table selects and every resistance variant has its drug names |
| Report.ResistanceSelectionErrors | tbprofiler/text.py:106-109 | a selected drug with no row in a well-formed summary table fails the resistance step with IndexError; a row without `Drug` fails it with KeyError `Drug` |
| Report.ResistanceTables | tbprofiler/text.py:110-116 | the drug loop's exception, then KeyError `other_variants`, else success with the four variables; the resistance variants carry `drug` up to the first failure and are as annotated after it |
| Report.ResistanceVars | tbprofiler/text.py:98-116 | fails exactly with the step's exception in source order: KeyError `other_variants` (annotation loop), `bed`, `drugs`, the selection's error, the drug loop's, then `other_variants` again; otherwise succeeds, with the drug table, variant tables and resistance type from the selection and the enriched variants; on every path the arrays are stated: untouched on the first error, annotated only on the configuration and selection errors, with `drug` up to the drug loop's first failure afterwards |
| Report.WriteText | tbprofiler/text.py:94-145 | KeyError `id` first; then the resistance step's exception, if any (the selection's error named); otherwise exactly the outcome of assembling the sections, so a report is produced iff every section succeeds; on success exactly the template variables of the result's sections are set, with each section's values, and the variant arrays hold the enriched variants (unchanged without resistance variants) |

## Left out

- Rendering: `load_text`, the Jinja2 template, the default template text and the
  template file read (lines 14-86) are not modelled. `WriteText` returns the variable
  map it would render.
- Output: the write to `outfile` (lines 144-145) is not modelled.
- The clock: `time.ctime()` is the parameter `now`.
- Collaborators: `dict_list2text`, `get_summary` and `get_drug_list` are not part of
  this model. They are function parameters, and their results are taken as given.
  - `get_summary` is assumed to return a result that holds the unfiltered drug
    table (line 109 then selects from it) and `drtype`, and that keeps every other
    field and the variant lists as they were.
  - `summarise` receives only the two variant lists, the configuration, `columns`
    and `reporting_af`. The source passes the whole result dictionary, so a summary
    that depends on other fields of the result is not modelled.
  - Any exception these collaborators raise is not modelled.
- Aliasing: `text_strings` is the result dictionary itself in the source, so the
  rendered mapping also holds every field of the result. The model keeps only the
  variables the report sets.
- The caller's result dictionary after the call is not represented. `ProfileResult`
  is an immutable value. In the source, the call changes that dictionary in place:
  - line 109 replaces its `drug_table` with the selection;
  - lines 96-143 write every template variable into it, for example replacing the
    `pipeline` list with its text table at line 136.
- Shared records: variant records shared between the two lists are modelled only
  when the two lists are the same array; a record shared by two different lists is
  not.
- Values are the text the template would print. `str()` of numbers and floats is not
  modelled.
- Strings.Upper: upper-cases ASCII letters only; Python's Unicode case mapping is not
  modelled.
- The variant tables: the formatter receives only each variant's text fields, not
  its nested `drugs` or `annotation` lists, so a `drugs.drug` column path is left to
  the formatter's view of the flat `drug` field.
- Report.WriteText: on failure, the contents of the variant arrays are not specified.
  `Report.ResistanceVars` states them for the only step that changes the arrays.
- The formatter's column argument: an empty column list stands for both `[]` and
  "not given".
- The unused imports (`unittest.result`, `errlog`, `debug`, `unlist`) have no
  behaviour to model.
