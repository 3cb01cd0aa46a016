/** `stringify_annotations`: the annotations attached to a variant, each a
    mapping rendered as `key=val` items joined by `|`, the annotations
    joined by `;`. A parser for that format is given beside it, as its
    inverse. */
module Annotations {
  import opened Wrappers
  import opened Strings

  /** One annotation mapping, as its items in insertion order (Python dicts
      iterate in insertion order). */
  type Annotation = seq<(string, string)>

  /** `f'{key}={val}'` for each item. */
  function ItemTexts(ann: Annotation): seq<string>
  {
    seq(|ann|, i requires 0 <= i < |ann| => ann[i].0 + "=" + ann[i].1)
  }

  /** `"|".join(...)` of one annotation's items. */
  function AnnotationText(ann: Annotation): string
  {
    Join(ItemTexts(ann), "|")
  }

  function AnnotationTexts(anns: seq<Annotation>): seq<string>
  {
    seq(|anns|, i requires 0 <= i < |anns| => AnnotationText(anns[i]))
  }

  /** `stringify_annotations(annotation)`. */
  function StringifyAnnotations(anns: seq<Annotation>): (r: string)
    ensures anns == [] ==> r == ""
  {
    Join(AnnotationTexts(anns), ";")
  }

  /** The text before and after the first `c` in `s`; None when `s` has no `c`. */
  function SplitFirst(s: string, c: char): (r: Option<(string, string)>)
    ensures r.None? <==> c !in s
    ensures r.Some? ==> c !in r.value.0 && s == r.value.0 + [c] + r.value.1
  {
    if s == [] then None
    else if s[0] == c then Some(([], s[1..]))
    else
      match SplitFirst(s[1..], c)
      case None => None
      case Some((a, b)) => Some(([s[0]] + a, b))
  }

  /** Reads `key=val` items back, cutting each at its first `=`. */
  function ParseItems(items: seq<string>): Option<Annotation>
  {
    if items == [] then Some([])
    else
      match (SplitFirst(items[0], '='), ParseItems(items[1..]))
      case (Some(kv), Some(rest)) => Some([kv] + rest)
      case _ => None
  }

  function ParseAnnotation(s: string): Option<Annotation>
  {
    ParseItems(Split(s, "|"))
  }

  function ParseAll(texts: seq<string>): Option<seq<Annotation>>
  {
    if texts == [] then Some([])
    else
      match (ParseAnnotation(texts[0]), ParseAll(texts[1..]))
      case (Some(a), Some(rest)) => Some([a] + rest)
      case _ => None
  }

  /** The inverse of StringifyAnnotations on well-formed annotations. */
  function ParseAnnotations(s: string): Option<seq<Annotation>>
  {
    if s == "" then Some([]) else ParseAll(Split(s, ";"))
  }

  /** No key or value holds the annotation separator `;`. */
  predicate NoSemicolons(ann: Annotation)
  {
    forall i :: 0 <= i < |ann| ==> ';' !in ann[i].0 && ';' !in ann[i].1
  }

  /** An annotation the text format can carry unambiguously: at least one
      item, no separator in keys or values, no `=` in keys. */
  predicate WellFormed(ann: Annotation)
  {
    && |ann| > 0
    && NoSemicolons(ann)
    && forall i :: 0 <= i < |ann| ==> '|' !in ann[i].0 && '|' !in ann[i].1 && '=' !in ann[i].0
  }

  lemma {:induction false} SplitFirstAt(k: string, v: string, c: char)
    requires c !in k
    ensures SplitFirst(k + [c] + v, c) == Some((k, v))
  {
    if k == [] {
      assert k + [c] + v == [c] + v;
    } else {
      assert (k + [c] + v)[1..] == k[1..] + [c] + v;
      assert c !in k[1..] by {
        forall i | 0 <= i < |k[1..]| ensures k[1..][i] != c { assert k[1..][i] == k[i + 1]; }
      }
      SplitFirstAt(k[1..], v, c);
      assert [k[0]] + k[1..] == k;
    }
  }

  lemma {:induction false} ParseItemTexts(ann: Annotation)
    requires forall i :: 0 <= i < |ann| ==> '=' !in ann[i].0
    ensures ParseItems(ItemTexts(ann)) == Some(ann)
  {
    if ann != [] {
      assert ItemTexts(ann)[1..] == ItemTexts(ann[1..]);
      ParseItemTexts(ann[1..]);
      SplitFirstAt(ann[0].0, ann[0].1, '=');
      assert ann[0].0 + "=" + ann[0].1 == ann[0].0 + ['='] + ann[0].1;
      assert [ann[0]] + ann[1..] == ann;
    }
  }

  /** One annotation's text reads back as that annotation. */
  lemma ParseAnnotationText(ann: Annotation)
    requires WellFormed(ann)
    ensures ParseAnnotation(AnnotationText(ann)) == Some(ann)
  {
    var items := ItemTexts(ann);
    forall i | 0 <= i < |items| ensures '|' !in items[i] {
      assert items[i] == ann[i].0 + "=" + ann[i].1;
    }
    SplitJoin(items, "|");
    ParseItemTexts(ann);
  }

  lemma {:induction false} ParseAllTexts(anns: seq<Annotation>)
    requires forall i :: 0 <= i < |anns| ==> WellFormed(anns[i])
    ensures ParseAll(AnnotationTexts(anns)) == Some(anns)
  {
    if anns != [] {
      assert AnnotationTexts(anns)[1..] == AnnotationTexts(anns[1..]);
      ParseAllTexts(anns[1..]);
      ParseAnnotationText(anns[0]);
      assert [anns[0]] + anns[1..] == anns;
    }
  }

  /** The text of one annotation holds no `;` when its keys and values hold none. */
  lemma AnnotationTextNoSemicolon(ann: Annotation)
    requires NoSemicolons(ann)
    ensures ';' !in AnnotationText(ann)
  {
    var items := ItemTexts(ann);
    forall i | 0 <= i < |items| ensures ';' !in items[i] {
      assert items[i] == ann[i].0 + "=" + ann[i].1;
    }
    JoinExcludes(items, "|", ';');
  }

  /** Round trip: the annotation string of well-formed annotations parses
      back to exactly those annotations, in order. */
  lemma StringifyRoundTrip(anns: seq<Annotation>)
    requires forall i :: 0 <= i < |anns| ==> WellFormed(anns[i])
    ensures ParseAnnotations(StringifyAnnotations(anns)) == Some(anns)
  {
    if anns != [] {
      var texts := AnnotationTexts(anns);
      forall i | 0 <= i < |texts| ensures ';' !in texts[i] {
        AnnotationTextNoSemicolon(anns[i]);
      }
      SplitJoin(texts, ";");
      ParseAllTexts(anns);
    }
  }

  /** n annotations whose keys and values hold no `;` give exactly n - 1
      `;` characters. */
  lemma SemicolonCount(anns: seq<Annotation>)
    requires anns != []
    requires forall i :: 0 <= i < |anns| ==> NoSemicolons(anns[i])
    ensures Count(StringifyAnnotations(anns), ';') == |anns| - 1
  {
    var texts := AnnotationTexts(anns);
    forall i | 0 <= i < |texts| ensures ';' !in texts[i] {
      AnnotationTextNoSemicolon(anns[i]);
    }
    JoinCount(texts, ';');
  }

  /** `[{"a": "1", "b": "2"}]` gives `a=1|b=2`. */
  lemma SingleAnnotationExample()
    ensures StringifyAnnotations([[("a", "1"), ("b", "2")]]) == "a=1|b=2"
  {
    var ann: Annotation := [("a", "1"), ("b", "2")];
    assert ItemTexts(ann)[0] == "a=1" && ItemTexts(ann)[1] == "b=2";
    assert ItemTexts(ann) == ["a=1", "b=2"];
    assert Join(["a=1", "b=2"], "|") == "a=1|b=2";
    assert AnnotationTexts([ann]) == ["a=1|b=2"];
  }

  /** No annotations and one empty annotation mapping both give the empty
      string, so the format cannot tell them apart. */
  lemma EmptyAnnotationIndistinct()
    ensures StringifyAnnotations([]) == StringifyAnnotations([[]]) == ""
  {
    assert AnnotationTexts([[]]) == [""];
  }
}
