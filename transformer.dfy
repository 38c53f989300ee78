/**
 The record transformer of the GeoRequetes import (`file_to_elasticsearch`):
 one raw record and a document-type tag in, the list of documents to index
 out. This module states the transformer as functions and proves what each
 branch promises; module Loader runs the same branches as the source's loops.
 */
module Transformer {
  import opened Json

  /** A document handed to the bulk writer: `_id` (absent for query logs, so
      that the index assigns one), `_type` and `_source`. */
  datatype Doc = Doc(id: Option<Value>, docType: string, source: Value)

  /** How a call of the transformer ends: it returns a list, it falls off the
      end of the function (Python `None`), or it raises. */
  datatype Outcome = Returned(docs: seq<Doc>) | ReturnedNone | Raised(error: Error)

  /** The search index as the transformer sees it through `get`: the response
      for a (doc_type, id) pair. A pair that is not a key stands for both a
      document that does not exist and a transport failure, which the source
      handles alike. */
  type Index = map<(string, Value), map<string, Value>>

  function Get(index: Index, docType: string, id: Value): (response: Option<map<string, Value>>) {
    if (docType, id) in index then Some(index[(docType, id)]) else None
  }

  /** `es_doc and len(es_doc) > 0`: a response exists and is not empty. */
  predicate Found(response: Option<map<string, Value>>) {
    response.Some? && |response.value| > 0
  }

  const CommunesPj := "communes_pj"
  const Communes := "communes"
  const Regions := "regions"
  const Departements := "departements"
  const Requetes := "requetes"

  predicate KnownTag(tag: string) {
    tag == CommunesPj || tag == Communes || tag == Regions || tag == Departements || tag == Requetes
  }

  function Lift(r: Result<seq<Doc>>): (out: Outcome) {
    match r
    case Ok(docs) => Returned(docs)
    case Err(e) => Raised(e)
  }

  // ---------------------------------------------------------------------------
  // communes_pj: one row of the directory cross-reference table

  /** The body built from a cross-reference row, fields 0 to 4. */
  function CommunePjBody(pj: Value, insee: Value, inseePj: Value, libelle: Value, flag: Value): (body: Value) {
    Obj(map[
      "code_localite_pj" := pj,
      "code_localite_insee" := insee,
      "code_localite_insee_pj" := inseePj,
      "libelle" := libelle,
      "principale" := Bool(flag == Str("1"))
    ])
  }

  function CommunePjDoc(row: Value): (r: Result<Doc>) {
    var pj :- Item(row, 0);
    var insee :- Item(row, 1);
    var inseePj :- Item(row, 2);
    var libelle :- Item(row, 3);
    var flag :- Item(row, 4);
    Ok(Doc(Some(insee), CommunesPj, CommunePjBody(pj, insee, inseePj, libelle, flag)))
  }

  // ---------------------------------------------------------------------------
  // regions and departements: one document per feature, keyed by prefix + code

  /** `feature['properties']['code']`. */
  function CodeOf(feature: Value): (code: Result<Value>) {
    Path(feature, ["properties", "code"])
  }

  /** The prefix the source puts before a feature's code. */
  function Prefix(tag: string): (prefix: string) {
    if tag == Regions then "R" else "D"
  }

  function PrefixedDoc(feature: Value, prefix: string, docType: string): (r: Result<Doc>) {
    var code :- CodeOf(feature);
    var id :- AddPrefix(prefix, code);
    Ok(Doc(Some(id), docType, feature))
  }

  /** The documents of a feature list, built front to back; the first feature
      that raises ends the whole call. */
  function PrefixedDocs(features: seq<Value>, prefix: string, docType: string): (r: Result<seq<Doc>>)
    decreases |features|
  {
    if features == [] then Ok([])
    else
      var docs :- PrefixedDocs(features[..|features| - 1], prefix, docType);
      var d :- PrefixedDoc(features[|features| - 1], prefix, docType);
      Ok(docs + [d])
  }

  // ---------------------------------------------------------------------------
  // communes: enriched with the directory code, skipped when it has none

  /** `es_doc['_source']['code_localite_pj']` of a communes_pj lookup
      response. */
  function DirectoryCode(response: map<string, Value>): (codePj: Result<Value>) {
    Path(Obj(response), ["_source", "code_localite_pj"])
  }

  /** One feature of the communes branch: `Ok(None)` when it is skipped,
      `Ok(Some(d))` when it is emitted. */
  function CommuneStep(feature: Value, index: Index): (step: Result<Option<Doc>>) {
    var code :- CodeOf(feature);
    var response := Get(index, CommunesPj, code);
    if Found(response) then
      var codePj :- DirectoryCode(response.value);
      var props :- Subscript(feature, "properties");
      var newProps :- SetKey(props, "code_pj", codePj);
      var newFeature :- SetKey(feature, "properties", newProps);
      Ok(Some(Doc(Some(codePj), Communes, newFeature)))
    else
      Ok(None)
  }

  function CommuneDocs(features: seq<Value>, index: Index): (r: Result<seq<Doc>>)
    decreases |features|
  {
    if features == [] then Ok([])
    else
      var docs :- CommuneDocs(features[..|features| - 1], index);
      var step :- CommuneStep(features[|features| - 1], index);
      Ok(if step.Some? then docs + [step.value] else docs)
  }

  // ---------------------------------------------------------------------------
  // requetes: one query-log hit, enriched with the locality's centroid

  /** `{'lat': centroide_y, 'lng': centroide_x}` of a communes lookup
      response, or the error reading them raises. */
  function Position(response: map<string, Value>): (position: Result<Value>) {
    var lat :- Path(Obj(response), ["_source", "properties", "centroide_y"]);
    var lng :- Path(Obj(response), ["_source", "properties", "centroide_x"]);
    Ok(Obj(map["lat" := lat, "lng" := lng]))
  }

  function QueryDoc(hit: Value, index: Index): (r: Result<Doc>) {
    var doc :- Subscript(hit, "_source");
    var hasGeoType :- Contains("typegeosimple", doc);
    if !hasGeoType then Ok(Doc(None, Requetes, doc))
    else
      var geoType :- Subscript(doc, "typegeosimple");
      if geoType != Str("L") then Ok(Doc(None, Requetes, doc))
      else
        var locality :- Subscript(doc, "idlocalite");
        var response := Get(index, Communes, locality);
        if Found(response) then
          var position :- Position(response.value);
          var enriched :- SetKey(doc, "position", position);
          Ok(Doc(None, Requetes, enriched))
        else
          Ok(Doc(None, Requetes, doc))
  }

  // ---------------------------------------------------------------------------
  // the dispatch on the type tag

  /** `p_docin['features']`, iterated. */
  function Features(docin: Value): (features: Result<seq<Value>>) {
    var fs :- Subscript(docin, "features");
    Iterate(fs)
  }

  function Transform(docin: Value, tag: string, index: Index): (out: Outcome) {
    if tag == CommunesPj then
      match CommunePjDoc(docin)
      case Ok(d) => Returned([d])
      case Err(e) => Raised(e)
    else if tag == Communes then
      match Features(docin)
      case Ok(fs) => Lift(CommuneDocs(fs, index))
      case Err(e) => Raised(e)
    else if tag == Regions || tag == Departements then
      match Features(docin)
      case Ok(fs) => Lift(PrefixedDocs(fs, Prefix(tag), tag))
      case Err(e) => Raised(e)
    else if tag == Requetes then
      match QueryDoc(docin, index)
      case Ok(d) => Returned([d])
      case Err(e) => Raised(e)
    else
      ReturnedNone
  }
}
