/**
 What each branch of the transformer promises, proved of the functions in
 module Transformer.
 */
module Properties {
  import opened Json
  import opened Transformer

  lemma CodeOfUnfold(feature: Value)
    ensures CodeOf(feature).Ok? <==>
      feature.Obj? && "properties" in feature.fields &&
      feature.fields["properties"].Obj? && "code" in feature.fields["properties"].fields
    ensures CodeOf(feature).Ok? ==> CodeOf(feature).value == feature.fields["properties"].fields["code"]
  {
  }

  // ---------------------------------------------------------------------------
  // communes_pj

  /** A cross-reference row gives exactly one document, keyed by field 1 (the
      national code), whose body names fields 0 to 3 in order and whose
      `principale` is true exactly when field 4 is the string "1". A row
      without a field 4 raises what indexing field 4 raises. */
  lemma CommunesPjDocument(row: Value, index: Index)
    ensures var out := Transform(row, CommunesPj, index);
      (out.Raised? <==> Item(row, 4).Err?) &&
      (out.Raised? ==> out.error == Item(row, 4).error) &&
      (out.Returned? ==>
        |out.docs| == 1 &&
        out.docs[0].id == Some(Item(row, 1).value) &&
        out.docs[0].docType == "communes_pj" &&
        out.docs[0].source.Obj? &&
        out.docs[0].source.fields.Keys ==
          {"code_localite_pj", "code_localite_insee", "code_localite_insee_pj", "libelle", "principale"} &&
        out.docs[0].source.fields["code_localite_pj"] == Item(row, 0).value &&
        out.docs[0].source.fields["code_localite_insee"] == Item(row, 1).value &&
        out.docs[0].source.fields["code_localite_insee_pj"] == Item(row, 2).value &&
        out.docs[0].source.fields["libelle"] == Item(row, 3).value &&
        (out.docs[0].source.fields["principale"] == Bool(true) <==> Item(row, 4).value == Str("1")) &&
        (out.docs[0].source.fields["principale"] == Bool(false) <==> Item(row, 4).value != Str("1")))
  {
  }

  /** Example: a row of five strings. */
  lemma CommunesPjExample(index: Index)
    ensures Transform(Arr([Str("PJ001"), Str("75001"), Str("75101"), Str("Paris 1er"), Str("1")]), CommunesPj, index)
      == Returned([Doc(Some(Str("75001")), "communes_pj", Obj(map[
           "code_localite_pj" := Str("PJ001"),
           "code_localite_insee" := Str("75001"),
           "code_localite_insee_pj" := Str("75101"),
           "libelle" := Str("Paris 1er"),
           "principale" := Bool(true)]))])
  {
  }

  // ---------------------------------------------------------------------------
  // regions and departements

  lemma PrefixedDocShape(feature: Value, prefix: string, docType: string)
    ensures PrefixedDoc(feature, prefix, docType).Ok? <==> CodeOf(feature).Ok? && CodeOf(feature).value.Str?
    ensures PrefixedDoc(feature, prefix, docType).Ok? ==>
      PrefixedDoc(feature, prefix, docType).value ==
        Doc(Some(Str(prefix + CodeOf(feature).value.s)), docType, feature)
  {
  }

  /** The loop over features: it yields one document per feature, in input
      order, or raises the error of the first feature that raises. */
  lemma {:induction false} PrefixedDocsElementwise(features: seq<Value>, prefix: string, docType: string)
    ensures var r := PrefixedDocs(features, prefix, docType);
      (r.Ok? <==> forall i :: 0 <= i < |features| ==> PrefixedDoc(features[i], prefix, docType).Ok?) &&
      (r.Ok? ==>
         |r.value| == |features| &&
         forall i :: 0 <= i < |features| ==> r.value[i] == PrefixedDoc(features[i], prefix, docType).value) &&
      (r.Err? ==>
         exists i ::
           0 <= i < |features| && PrefixedDoc(features[i], prefix, docType) == Err(r.error) &&
           forall j :: 0 <= j < i ==> PrefixedDoc(features[j], prefix, docType).Ok?)
    decreases |features|
  {
    if features != [] {
      var n := |features|;
      var init := features[..n - 1];
      PrefixedDocsElementwise(init, prefix, docType);
      assert forall i :: 0 <= i < n - 1 ==> init[i] == features[i];
      var r := PrefixedDocs(features, prefix, docType);
      if r.Err? && PrefixedDocs(init, prefix, docType).Ok? {
        assert PrefixedDoc(features[n - 1], prefix, docType) == Err(r.error);
      }
    }
  }

  /** Once a prefix of the features raises, the whole list raises the same. */
  lemma {:induction false} PrefixedDocsErrorPersists(features: seq<Value>, k: nat, prefix: string, docType: string)
    requires k <= |features|
    requires PrefixedDocs(features[..k], prefix, docType).Err?
    ensures PrefixedDocs(features, prefix, docType) == PrefixedDocs(features[..k], prefix, docType)
    decreases |features| - k
  {
    if k < |features| {
      var n := |features|;
      assert features[..n][..n - 1] == features[..n - 1];
      if k < n - 1 {
        assert features[..n - 1][..k] == features[..k];
        PrefixedDocsErrorPersists(features[..n - 1], k, prefix, docType);
      }
      assert features[..n] == features;
    } else {
      assert features[..k] == features;
    }
  }

  /** Regions and departements: one document per feature, in input order,
      with id "R" (regions) or "D" (departements) followed by the feature's
      code, the tag as type, and the feature unchanged as body. Only a feature
      whose code is not a string can make the call raise. */
  lemma PrefixedTransform(docin: Value, tag: string, index: Index, features: seq<Value>)
    requires tag == Regions || tag == Departements
    requires Features(docin) == Ok(features)
    ensures var out := Transform(docin, tag, index);
      (out.Returned? <==> forall i :: 0 <= i < |features| ==> CodeOf(features[i]).Ok? && CodeOf(features[i]).value.Str?) &&
      (out.Returned? ==>
         |out.docs| == |features| &&
         forall i :: 0 <= i < |features| ==>
           out.docs[i] == Doc(Some(Str(Prefix(tag) + CodeOf(features[i]).value.s)), tag, features[i]))
  {
    PrefixedDocsElementwise(features, Prefix(tag), tag);
    forall i | 0 <= i < |features| {
      PrefixedDocShape(features[i], Prefix(tag), tag);
    }
  }

  /** Example: one region with code "11". */
  lemma RegionExample(index: Index)
    ensures var feature := Obj(map["properties" := Obj(map["code" := Str("11")])]);
      Transform(Obj(map["features" := Arr([feature])]), Regions, index)
        == Returned([Doc(Some(Str("R11")), "regions", feature)])
  {
    var feature := Obj(map["properties" := Obj(map["code" := Str("11")])]);
    CodeOfUnfold(feature);
    var docin := Obj(map["features" := Arr([feature])]);
    PrefixedTransform(docin, Regions, index, [feature]);
    assert CodeOf(feature) == Ok(Str("11"));
    assert Prefix(Regions) + "11" == "R11";
  }

  // ---------------------------------------------------------------------------
  // communes

  /** The communes_pj lookup of the feature's code finds a non-empty document. */
  predicate LookupFinds(feature: Value, index: Index) {
    CodeOf(feature).Ok? && Found(Get(index, CommunesPj, CodeOf(feature).value))
  }

  predicate Emits(step: Result<Option<Doc>>) {
    step.Ok? && step.value.Some?
  }

  /** `feature` with `properties.code_pj` set to `codePj` and nothing else
      changed. */
  predicate TaggedWith(enriched: Value, feature: Value, codePj: Value) {
    enriched.Obj? && feature.Obj? &&
    enriched.fields.Keys == feature.fields.Keys &&
    (forall k :: k in feature.fields && k != "properties" ==> enriched.fields[k] == feature.fields[k]) &&
    "properties" in feature.fields && feature.fields["properties"].Obj? &&
    enriched.fields["properties"].Obj? &&
    enriched.fields["properties"].fields.Keys == feature.fields["properties"].fields.Keys + {"code_pj"} &&
    enriched.fields["properties"].fields["code_pj"] == codePj &&
    (forall k :: k in feature.fields["properties"].fields && k != "code_pj" ==>
       enriched.fields["properties"].fields[k] == feature.fields["properties"].fields[k])
  }

  /** One commune feature: a missing code raises; a code whose lookup finds
      nothing skips the feature without raising; a found directory entry
      emits the feature, tagged with its directory code and keyed by it, and
      raises only when the entry has no `_source.code_localite_pj`. */
  lemma CommuneStepOutcome(feature: Value, index: Index)
    ensures CodeOf(feature).Err? ==> CommuneStep(feature, index) == Err(CodeOf(feature).error)
    ensures CodeOf(feature).Ok? && !LookupFinds(feature, index) ==> CommuneStep(feature, index) == Ok(None)
    ensures LookupFinds(feature, index) ==>
      var response := Get(index, CommunesPj, CodeOf(feature).value).value;
      (DirectoryCode(response).Err? ==> CommuneStep(feature, index) == Err(DirectoryCode(response).error)) &&
      (DirectoryCode(response).Ok? ==>
        Emits(CommuneStep(feature, index)) &&
        CommuneStep(feature, index).value.value.id == Some(DirectoryCode(response).value) &&
        CommuneStep(feature, index).value.value.docType == "communes" &&
        TaggedWith(CommuneStep(feature, index).value.value.source, feature, DirectoryCode(response).value))
  {
  }

  /** The positions of the features the communes loop emits, in order. */
  function EmittedPositions(features: seq<Value>, index: Index): seq<nat>
    decreases |features|
  {
    if features == [] then []
    else
      var n := |features| - 1;
      EmittedPositions(features[..n], index) + if Emits(CommuneStep(features[n], index)) then [n] else []
  }

  lemma {:induction false} EmittedPositionsSelect(features: seq<Value>, index: Index)
    ensures var ps := EmittedPositions(features, index);
      (forall j :: 0 <= j < |ps| ==> ps[j] < |features|) &&
      (forall j, k :: 0 <= j < k < |ps| ==> ps[j] < ps[k]) &&
      (forall i :: 0 <= i < |features| ==> (i in ps <==> Emits(CommuneStep(features[i], index))))
    decreases |features|
  {
    if features != [] {
      var n := |features| - 1;
      var init := features[..n];
      EmittedPositionsSelect(init, index);
      assert forall i :: 0 <= i < n ==> init[i] == features[i];
    }
  }

  /** The communes loop emits, in input order, exactly the documents of the
      features at the emitted positions; it raises the error of the first
      feature that raises. */
  lemma {:induction false} CommuneDocsElementwise(features: seq<Value>, index: Index)
    ensures var r := CommuneDocs(features, index);
      var ps := EmittedPositions(features, index);
      (r.Ok? <==> forall i :: 0 <= i < |features| ==> CommuneStep(features[i], index).Ok?) &&
      (r.Ok? ==>
         |r.value| == |ps| &&
         forall j :: 0 <= j < |ps| ==>
           ps[j] < |features| && CommuneStep(features[ps[j]], index) == Ok(Some(r.value[j]))) &&
      (r.Err? ==>
         exists i ::
           0 <= i < |features| && CommuneStep(features[i], index) == Err(r.error) &&
           forall j :: 0 <= j < i ==> CommuneStep(features[j], index).Ok?)
    decreases |features|
  {
    if features != [] {
      var n := |features| - 1;
      var init := features[..n];
      CommuneDocsElementwise(init, index);
      EmittedPositionsSelect(init, index);
      assert forall i :: 0 <= i < n ==> init[i] == features[i];
      var r := CommuneDocs(features, index);
      if r.Err? && CommuneDocs(init, index).Ok? {
        assert CommuneStep(features[n], index) == Err(r.error);
      }
    }
  }

  lemma {:induction false} CommuneDocsErrorPersists(features: seq<Value>, k: nat, index: Index)
    requires k <= |features|
    requires CommuneDocs(features[..k], index).Err?
    ensures CommuneDocs(features, index) == CommuneDocs(features[..k], index)
    decreases |features| - k
  {
    if k < |features| {
      var n := |features|;
      assert features[..n][..n - 1] == features[..n - 1];
      if k < n - 1 {
        assert features[..n - 1][..k] == features[..k];
        CommuneDocsErrorPersists(features[..n - 1], k, index);
      }
      assert features[..n] == features;
    } else {
      assert features[..k] == features;
    }
  }

  /** Communes: when the call returns, a feature is emitted exactly when the
      communes_pj lookup of its code finds a document, the emitted documents
      keep input order, and each is the feature tagged with the directory
      code found, keyed by that code. A lookup that finds nothing is never
      what makes the call raise. */
  lemma CommunesTransform(docin: Value, index: Index, features: seq<Value>)
    requires Features(docin) == Ok(features)
    ensures var out := Transform(docin, Communes, index);
      var ps := EmittedPositions(features, index);
      (out.Returned? <==> forall i :: 0 <= i < |features| ==>
        CodeOf(features[i]).Ok? &&
        (LookupFinds(features[i], index) ==> DirectoryCode(Get(index, CommunesPj, CodeOf(features[i]).value).value).Ok?)) &&
      (out.Returned? ==>
        (forall i :: 0 <= i < |features| ==> (i in ps <==> LookupFinds(features[i], index))) &&
        (forall j, k :: 0 <= j < k < |ps| ==> ps[j] < ps[k]) &&
        |out.docs| == |ps| &&
        forall j :: 0 <= j < |ps| ==>
          ps[j] < |features| &&
          out.docs[j].id == Some(DirectoryCode(Get(index, CommunesPj, CodeOf(features[ps[j]]).value).value).value) &&
          out.docs[j].docType == "communes" &&
          TaggedWith(out.docs[j].source, features[ps[j]], out.docs[j].id.value))
  {
    CommuneDocsElementwise(features, index);
    EmittedPositionsSelect(features, index);
    forall i | 0 <= i < |features| {
      CommuneStepOutcome(features[i], index);
    }
  }

  // ---------------------------------------------------------------------------
  // requetes

  /** A query-log hit gives exactly one document, without an id, typed
      "requetes". */
  lemma RequetesSingleDocument(hit: Value, index: Index)
    ensures var out := Transform(hit, Requetes, index);
      out.Returned? ==> |out.docs| == 1 && out.docs[0].id.None? && out.docs[0].docType == "requetes"
  {
  }

  /** A query log whose body is a dict: it gains `position` exactly when its
      `typegeosimple` is "L" and the communes lookup of its `idlocalite`
      finds a document, with `lat` the commune's `centroide_y` and `lng` its
      `centroide_x`; otherwise its body is passed through unchanged. Only a
      locality query without `idlocalite`, or a found commune without a
      centroid, makes the call raise. */
  lemma RequetesEnrichment(hit: Value, index: Index, body: map<string, Value>)
    requires Subscript(hit, "_source") == Ok(Obj(body))
    ensures var out := Transform(hit, Requetes, index);
      var wantsPosition := "typegeosimple" in body && body["typegeosimple"] == Str("L");
      (!wantsPosition ==> out == Returned([Doc(None, "requetes", Obj(body))])) &&
      (wantsPosition && "idlocalite" !in body ==> out == Raised(KeyError)) &&
      (wantsPosition && "idlocalite" in body && !Found(Get(index, Communes, body["idlocalite"])) ==>
        out == Returned([Doc(None, "requetes", Obj(body))])) &&
      (wantsPosition && "idlocalite" in body && Found(Get(index, Communes, body["idlocalite"])) ==>
        var position := Position(Get(index, Communes, body["idlocalite"]).value);
        (position.Err? ==> out == Raised(position.error)) &&
        (position.Ok? ==> out == Returned([Doc(None, "requetes", Obj(body["position" := position.value]))])))
  {
  }

  // ---------------------------------------------------------------------------
  // the dispatch

  /** The transformer returns a list exactly for the five known tags (or
      raises on them); any other tag falls off the end and yields nothing. */
  lemma UnknownTagYieldsNone(docin: Value, tag: string, index: Index)
    ensures Transform(docin, tag, index).ReturnedNone? <==> !KnownTag(tag)
  {
  }

  /** Every document the transformer returns carries the tag it was called
      with as its type. */
  lemma DocumentsCarryTheTag(docin: Value, tag: string, index: Index)
    ensures var out := Transform(docin, tag, index);
      out.Returned? ==> KnownTag(tag) && forall d :: d in out.docs ==> d.docType == tag
  {
    var out := Transform(docin, tag, index);
    if out.Returned? {
      if tag == Communes {
        var features := Features(docin).value;
        CommuneDocsElementwise(features, index);
        forall d | d in out.docs ensures d.docType == tag {
          var j :| 0 <= j < |out.docs| && out.docs[j] == d;
          var ps := EmittedPositions(features, index);
          CommuneStepOutcome(features[ps[j]], index);
        }
      } else if tag == Regions || tag == Departements {
        PrefixedTransform(docin, tag, index, Features(docin).value);
      }
    }
  }
}
