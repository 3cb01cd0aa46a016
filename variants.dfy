/** The two loops of `write_text` that enrich variant records in place:
    every variant gets an `annotation_str`, every resistance variant a
    `drug` field listing its drugs. */
module Variants {
  import opened Wrappers
  import opened Strings
  import opened Rows
  import opened Annotations

  /** A variant record: its text fields (`gene`, `change`, `freq`, and the
      `annotation_str` and `drug` fields the loops add), its optional
      `annotation` list and its optional `drugs` list. */
  datatype Variant = Variant(scalars: map<string, string>,
                             annotation: Option<seq<Annotation>>,
                             drugs: Option<seq<Row>>)

  /** The `annotation_str` a variant gets: its stringified annotations, or
      the empty string when it has no `annotation` field. */
  function AnnotationStr(v: Variant): string
  {
    match v.annotation
    case Some(anns) => StringifyAnnotations(anns)
    case None => ""
  }

  /** One step of the annotation loop: `annotation_str` is set, nothing else
      of the variant changes. */
  function Annotated(v: Variant): (r: Variant)
    ensures r.annotation == v.annotation && r.drugs == v.drugs
    ensures r.scalars.Keys == v.scalars.Keys + {"annotation_str"}
    ensures forall k :: k in v.scalars && k != "annotation_str" ==> r.scalars[k] == v.scalars[k]
    ensures v.annotation.None? ==> r.scalars["annotation_str"] == ""
    ensures v.annotation.Some? ==> r.scalars["annotation_str"] == StringifyAnnotations(v.annotation.value)
  {
    v.(scalars := v.scalars["annotation_str" := AnnotationStr(v)])
  }

  /** Annotating an annotated variant changes nothing, so a variant reached
      twice by the loop ends as if reached once. */
  lemma AnnotatedIdempotent(v: Variant)
    ensures Annotated(Annotated(v)) == Annotated(v)
  {
    assert Annotated(v).scalars["annotation_str" := AnnotationStr(v)] == Annotated(v).scalars;
  }

  /** The `annotation_str` of a variant with well-formed annotations reads
      back as exactly those annotations. */
  lemma AnnotationStrDecodes(v: Variant)
    requires v.annotation.Some?
    requires forall i :: 0 <= i < |v.annotation.value| ==> WellFormed(v.annotation.value[i])
    ensures ParseAnnotations(Annotated(v).scalars["annotation_str"]) == v.annotation
  {
    StringifyRoundTrip(v.annotation.value);
  }

  /** The annotation loop of lines 100-104 over one list of variants. */
  method AnnotateEach(a: array<Variant>)
    modifies a
    ensures forall i :: 0 <= i < a.Length ==> a[i] == Annotated(old(a[i]))
  {
    for n := 0 to a.Length
      invariant forall i :: 0 <= i < n ==> a[i] == Annotated(old(a[i]))
      invariant forall i :: n <= i < a.Length ==> a[i] == old(a[i])
    {
      a[n] := Annotated(a[n]);
    }
  }

  /** `"; ".join([d["drug"] for d in var["drugs"]])`: KeyError when the
      variant has no `drugs`, or when one of its drugs has no `drug` name. */
  function DrugText(v: Variant): (r: Result<string>)
    ensures v.drugs.None? ==> r == Err(KeyError("drugs"))
    ensures v.drugs.Some? ==> (r.Ok? <==> forall i :: 0 <= i < |v.drugs.value| ==> "drug" in v.drugs.value[i])
    ensures v.drugs.Some? && r.Err? ==> r.error == KeyError("drug")
    ensures v.drugs == Some([]) ==> r == Ok("")
  {
    match v.drugs
    case None => Err(KeyError("drugs"))
    case Some(ds) =>
      match Column(ds, "drug")
      case Ok(names) => Ok(Join(names, "; "))
      case Err(e) => Err(e)
  }

  /** The drug field reads back, split on `"; "`, as the drug names in the
      order of the variant's `drugs` list, when no name holds a `;`. */
  lemma DrugTextNames(v: Variant)
    requires v.drugs.Some? && v.drugs.value != []
    requires forall i :: 0 <= i < |v.drugs.value| ==>
               "drug" in v.drugs.value[i] && ';' !in v.drugs.value[i]["drug"]
    ensures DrugText(v).Ok?
    ensures |Split(DrugText(v).value, "; ")| == |v.drugs.value|
    ensures forall i :: 0 <= i < |v.drugs.value| ==> Split(DrugText(v).value, "; ")[i] == v.drugs.value[i]["drug"]
  {
    var names := Column(v.drugs.value, "drug").value;
    SplitJoin(names, "; ");
  }

  /** One step of the drug loop: `drug` is set, nothing else of the variant
      changes. */
  function WithDrugField(v: Variant): (r: Result<Variant>)
    ensures r.Ok? <==> DrugText(v).Ok?
    ensures r.Err? ==> r.error == DrugText(v).error
    ensures r.Ok? ==> (r.value.annotation == v.annotation && r.value.drugs == v.drugs &&
                       r.value.scalars.Keys == v.scalars.Keys + {"drug"} &&
                       r.value.scalars["drug"] == DrugText(v).value &&
                       forall k :: k in v.scalars && k != "drug" ==> r.value.scalars[k] == v.scalars[k])
  {
    match DrugText(v)
    case Ok(t) => Ok(v.(scalars := v.scalars["drug" := t]))
    case Err(e) => Err(e)
  }

  /** The position of the first variant of `vs` whose `drug` field cannot
      be built, or `|vs|` when there is none: the loop stops there. */
  function FirstFailure(vs: seq<Variant>): (r: nat)
    ensures r <= |vs|
    ensures forall i :: 0 <= i < r ==> WithDrugField(vs[i]).Ok?
    ensures r < |vs| ==> WithDrugField(vs[r]).Err?
  {
    if vs == [] || WithDrugField(vs[0]).Err? then 0
    else
      var r := 1 + FirstFailure(vs[1..]);
      assert forall i :: 1 <= i < r ==> vs[i] == vs[1..][i - 1];
      r
  }

  /** The exception the drug loop raises over `vs`, if any: that of the
      first variant whose `drug` field cannot be built. */
  function FlattenError(vs: seq<Variant>): (r: Option<Error>)
    ensures r.None? <==> forall i :: 0 <= i < |vs| ==> WithDrugField(vs[i]).Ok?
    ensures r.Some? ==> FirstFailure(vs) < |vs| && WithDrugField(vs[FirstFailure(vs)]) == Err(r.value)
  {
    var k := FirstFailure(vs);
    if k < |vs| then Some(WithDrugField(vs[k]).error) else None
  }

  /** The drug loop of lines 110-111. It stops at the first variant that
      raises, with that exception; the variants before it have their `drug`
      field, the others are untouched. */
  method FlattenDrugs(a: array<Variant>) returns (err: Option<Error>)
    modifies a
    ensures err == FlattenError(old(a[..]))
    ensures forall i :: 0 <= i < FirstFailure(old(a[..])) ==> WithDrugField(old(a[i])) == Ok(a[i])
    ensures forall i :: FirstFailure(old(a[..])) <= i < a.Length ==> a[i] == old(a[i])
  {
    ghost var a0 := a[..];
    var n := 0;
    while n < a.Length
      invariant n <= FirstFailure(a0)
      invariant forall i :: 0 <= i < n ==> WithDrugField(a0[i]) == Ok(a[i])
      invariant forall i :: n <= i < a.Length ==> a[i] == a0[i]
    {
      var r := WithDrugField(a[n]);
      if r.Err? {
        return Some(r.error);
      }
      a[n] := r.value;
      n := n + 1;
    }
    return None;
  }
}
