# GeoRequetes import: the record transformer

This project models the record transformer of the GeoRequetes data import,
`file_to_elasticsearch` in `init_data.py`. The transformer takes one raw
record and a document-type tag, and returns the list of documents to index.
Each document has an optional `_id`, a `_type` and a `_source` body. The
tag selects the branch:

- `communes_pj`: a row of the directory cross-reference table (Pages Jaunes
  locality codes). It gives one document keyed by the national (INSEE) code.
- `regions` and `departements`: a feature collection. It gives one document
  per feature, keyed by `"R"` or `"D"` followed by the feature's code.
- `communes`: a feature collection. Each feature is looked up in
  `communes_pj` by its code. A feature with no entry is skipped. A feature
  with an entry is tagged with the directory code (`properties.code_pj`)
  and keyed by that code.
- `requetes`: a query-log hit. Its body is passed through. A locality query
  (`typegeosimple == "L"`) gets a `position {lat, lng}` when the `communes`
  lookup of its `idlocalite` finds the commune.
- Any other tag falls off the end of the function, which returns nothing.

Files:

- `json.dfy` (module `Json`): the decoded JSON values the script handles.
  Numbers are kept as their literal text, because they are only copied. It
  also defines the Python operations the transformer applies to values:
  `v[key]`, `v[i]`, `in`, item assignment, iteration and `prefix + v`. Each
  returns the exception Python would raise (`KeyError`, `IndexError`,
  `TypeError`) as an error value.
- `transformer.dfy` (module `Transformer`): each branch as a function, and
  `Transform`, the dispatch on the tag. The search index's `get` is a map
  from (doc_type, id) to the response. A missing key stands for both "not
  found" and a transport failure, which the source handles the same way.
- `properties.dfy` (module `Properties`): what each branch promises, proved
  as lemmas about those functions.
- `loader.dfy` (module `Loader`): the branches that build their list with a
  `for` loop and `append`, written as methods with that loop. Each is proved
  equal to its function. `FileToElasticsearch` is proved equal to
  `Transform`.

Two error paths follow directly from the code:

- A cross-reference row shorter than five fields raises `IndexError` at
  `p_docin[4]` (init_data.py:37). `CommunesPjDocument` states that the call
  then raises.
- A locality query without `idlocalite` raises `KeyError` at init_data.py:99,
  because the `try` there catches only `TransportError`.
  `RequetesEnrichment` states that the call then raises.

## Model

| member | source | states |
|---|---|---|
| `Properties.CommunesPjDocument` | init_data.py:31-46 | a row gives exactly one document, with `_id` = field 1 and `_type` "communes_pj"; the body has exactly the five keys, with fields 0, 1, 2, 3 as `code_localite_pj`, `code_localite_insee`, `code_localite_insee_pj` and `libelle`; `principale` is true iff field 4 is exactly the string "1" and false otherwise; the call raises iff reading field 4 raises, with that error |
| `Properties.CommunesPjExample` | init_data.py:31-46 | the row `PJ001, 75001, 75101, Paris 1er, 1` gives the one document keyed "75001" with `principale` true |
| `Properties.PrefixedDocShape` | init_data.py:74-79 | one feature gives a document iff its `properties.code` exists and is a string; the document then has id prefix + code, the tag as type and the feature unchanged as body |
| `Properties.PrefixedDocsElementwise` | init_data.py:73-81 | the loop returns iff every feature gives a document; it then returns exactly one document per feature, the i-th from the i-th feature; otherwise it raises the error of the first feature that raises, and all earlier features succeeded |
| `Properties.PrefixedDocsErrorPersists` | init_data.py:84-92 | once a prefix of the features raises, the whole loop raises the same error |
| `Properties.PrefixedTransform` | init_data.py:72-92 | for regions (prefix "R") and departements (prefix "D"): the call returns iff every feature's code is a string; the result then has one document per feature, in input order, with id prefix + code, the tag as type and the feature unchanged as body |
| `Properties.RegionExample` | init_data.py:72-81 | one region with code "11" gives exactly the document with id "R11", type "regions" and the feature as body |
| `Properties.CommuneStepOutcome` | init_data.py:51-68 | for one commune: a missing code raises; a lookup that finds nothing skips the feature without raising; a found entry emits the feature keyed by the entry's `code_localite_pj`, with type "communes" and `properties.code_pj` set to that value, and no other field of the feature or of its properties changed; a found entry without `_source.code_localite_pj` raises |
| `Properties.EmittedPositionsSelect` | init_data.py:49-70 | the emitted positions are in range, strictly increasing, and contain a feature's position iff that feature is emitted |
| `Properties.CommuneDocsElementwise` | init_data.py:49-70 | the loop returns iff no feature raises; it then returns, in input order, exactly the documents of the emitted features; otherwise it raises the error of the first feature that raises |
| `Properties.CommuneDocsErrorPersists` | init_data.py:50-70 | once a prefix of the features raises, the whole communes loop raises the same error |
| `Properties.CommunesTransform` | init_data.py:48-70 | the call returns iff every code can be read and every found entry has a directory code; it then emits a feature iff the communes_pj lookup of its code finds a non-empty document, keeps input order, keys each by the directory code found and tags it with that code, changing nothing else |
| `Properties.RequetesSingleDocument` | init_data.py:112-117 | a query-log hit gives exactly one document, with no `_id` and type "requetes" |
| `Properties.RequetesEnrichment` | init_data.py:95-110 | for a dict body: `position` is set iff `typegeosimple` is "L" and the communes lookup of `idlocalite` finds a document, with `lat` = `centroide_y` and `lng` = `centroide_x`; otherwise the body is returned unchanged; a locality query without `idlocalite`, or a found commune without a centroid, raises |
| `Properties.UnknownTagYieldsNone` | init_data.py:31-117 | the function returns nothing (Python `None`) iff the tag is none of the five known tags |
| `Properties.DocumentsCarryTheTag` | init_data.py:28-117 | every document returned has the tag of the call as its type, and a list is returned only for a known tag |
| `Loader.PrefixedDocuments` | init_data.py:73-92 | the `for`/`append` loop over features computes exactly the regions/departements result, including the first error |
| `Loader.CommuneDocuments` | init_data.py:49-70 | the `for`/`append` loop over communes computes exactly the communes result; when it returns, skipped and emitted features add up to all features |
| `Loader.FileToElasticsearch` | init_data.py:28-117 | the dispatch on the tag computes exactly `Transform`, whose properties are the lemmas above |

## Left out

- `run_import` (init_data.py:119-247) is left out because it is all I/O. It
  covers reading the configuration, parsing the command line, connecting to
  Elasticsearch, creating and deleting the index and its mappings, and waiting.
- The reader/writer wiring and bulk batching of the `swallow` library are left
  out. Its source is not part of this model, so batch counts cannot be stated.
- `logger.py` is left out: it only configures logging. The transformer's log
  calls are not modelled. The one exception is the skip count returned by
  `Loader.CommuneDocuments`, one per `logger.info` on a skipped commune.
- The Elasticsearch client is modelled only by its outcome: the response, or
  nothing. The model leaves out exceptions the client raises other than
  `TransportError`, such as its own argument checks on an empty id. It also
  leaves out how the client turns a non-string id into a path: the model
  looks up the id value as it is.
- In-place mutation is modelled as a functional update. The source writes
  `code_pj` into the input feature (line 60) and `position` into the
  input body (line 105). The model returns updated copies, so it does not
  capture that the caller's `p_docin` is changed and shares those objects
  with the returned documents.
- The `Index` map makes each lookup a fixed function of (doc_type, id) for
  the whole call. So it cannot represent a `TransportError` that hits only one
  of two lookups of the same id. That happens when two commune features share
  a code and init_data.py:54 runs for both.
- Iterating a `features` value that is not a list is modelled by its outcome
  only. An empty dict or string iterates zero times. Any other non-list raises
  `TypeError`, which a non-empty dict or string does on its first element.
- Dict key order is not modelled, because bodies are maps. Numbers are kept as
  their literal text, so numerically equal but differently written ids are
  different lookup keys.
