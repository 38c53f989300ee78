/**
 `file_to_elasticsearch` as the import script runs it: the branches that build
 their result list with a loop and `append` are methods with that loop, each
 proved to compute the corresponding function of module Transformer.
 */
module Loader {
  import opened Json
  import opened Transformer
  import Properties

  /** The regions / departements loop: one document per feature, appended in
      order; a feature that raises ends the call. */
  method PrefixedDocuments(features: seq<Value>, prefix: string, docType: string) returns (r: Result<seq<Doc>>)
    ensures r == PrefixedDocs(features, prefix, docType)
  {
    var docs: seq<Doc> := [];
    var i := 0;
    while i < |features|
      invariant 0 <= i <= |features|
      invariant PrefixedDocs(features[..i], prefix, docType) == Ok(docs)
    {
      assert features[..i + 1][..i] == features[..i];
      var d := PrefixedDoc(features[i], prefix, docType);
      if d.Err? {
        Properties.PrefixedDocsErrorPersists(features, i + 1, prefix, docType);
        return Err(d.error);
      }
      docs := docs + [d.value];
      i := i + 1;
    }
    assert features[..i] == features;
    return Ok(docs);
  }

  /** The communes loop: each feature is looked up in communes_pj; a feature
      whose lookup finds nothing is skipped (and counted, as the source logs
      it), the others are tagged and appended in order. */
  method CommuneDocuments(features: seq<Value>, index: Index) returns (r: Result<seq<Doc>>, skipped: nat)
    ensures r == CommuneDocs(features, index)
    ensures r.Ok? ==> skipped + |r.value| == |features|
  {
    var docs: seq<Doc> := [];
    skipped := 0;
    var i := 0;
    while i < |features|
      invariant 0 <= i <= |features|
      invariant CommuneDocs(features[..i], index) == Ok(docs)
      invariant skipped + |docs| == i
    {
      assert features[..i + 1][..i] == features[..i];
      var step := CommuneStep(features[i], index);
      if step.Err? {
        Properties.CommuneDocsErrorPersists(features, i + 1, index);
        return Err(step.error), skipped;
      }
      if step.value.Some? {
        docs := docs + [step.value.value];
      } else {
        skipped := skipped + 1;
      }
      i := i + 1;
    }
    assert features[..i] == features;
    return Ok(docs), skipped;
  }

  /** The transformer: dispatch on the type tag; an unknown tag returns
      nothing. */
  method FileToElasticsearch(docin: Value, tag: string, index: Index) returns (out: Outcome)
    ensures out == Transform(docin, tag, index)
  {
    if tag == CommunesPj {
      var d := CommunePjDoc(docin);
      return if d.Ok? then Returned([d.value]) else Raised(d.error);
    }
    if tag == Communes {
      var features := Features(docin);
      if features.Err? {
        return Raised(features.error);
      }
      var docs, _ := CommuneDocuments(features.value, index);
      return Lift(docs);
    } else if tag == Regions || tag == Departements {
      var features := Features(docin);
      if features.Err? {
        return Raised(features.error);
      }
      var docs := PrefixedDocuments(features.value, Prefix(tag), tag);
      return Lift(docs);
    } else if tag == Requetes {
      var d := QueryDoc(docin, index);
      return if d.Ok? then Returned([d.value]) else Raised(d.error);
    }
    return ReturnedNone;
  }
}
