# restoreMongo: source selection and synthetic documents, modelled in Dafny

`restoreMongo.py` recreates MongoDB collections from captured metadata. For each
collection folder it reads `example_document.json` and, when that yields no
usable sample, `schema_and_indexes.json`. It then inserts the captured sample
document, or one synthetic document generated from the captured schema, or skips
the collection. This project models the two decisions in that script.

- The **synthetic-document generator** (`generate_synthetic_document`). For each
  schema field, an if/elif cascade picks one value kind from the recorded type
  tags. The generator stores one generated value under the field's own name.
  Tags that are not recognised give the literal string `"unknown"`.
- The **source selection** of `recreate_collection`. The sample document is
  inserted, or a document is synthesised, or the collection is skipped. This
  rests on `load_json`, which returns `None` for a missing, empty or unparsable file.

Files:

- `values.dfy` (module `Values`). The Python values the script handles: JSON
  values, plus BSON `Decimal128` and faker's `decimal.Decimal` coordinates.
  Python's `None` and JSON `null` are one value, `PyNone`. The module also gives
  Python truthiness and Python's `in` test (`Contains`).
- `type_tags.dfy` (module `TypeTags`). The fourteen recognised tags, the
  cascade `Resolve`, how a recorded schema entry is read as a tag list (`TagList`),
  and the kind chosen for a raw entry (`ResolveEntry`), checked against the
  cascade run test by test with Python's `in` (`EntryCascade`, the reference
  definition that `ResolveEntryIsCascade` compares against).
- `synthesis.dfy` (module `Synthesis`). The value built for each kind, the
  loop that fills the document (`GenerateSyntheticDocument`), and the function
  that specifies it (`SyntheticDocument`).
- `restore.dfy` (module `Restore`). `load_json` and the decision taken by
  `recreate_collection`.

Randomness is an input. `Draws` records what `faker` and `random` return
while one field is generated. `draw: string -> Draws` gives the draws for each
field name. `random.randint(lo, hi)` becomes `lo + pick % (hi - lo + 1)`, and
`RandIntCovers` shows that every value of the range can come out.

The model follows the code, and the code is broader than the extractor's usual
output in several places:

- A schema entry need not be a list. Python's `in` searches a dict by key and a
  string by substring. On `None`, a number or a bool, `in` raises `TypeError`.
  The per-field `except` catches that error, so the field is left out of the
  document (`TagList` returns `None`). A plain string is searched by substring,
  so the entry `"GeoJSON Point"` resolves to int (`"int"` occurs in `"Point"`),
  while the list `["GeoJSON Point"]` resolves to a GeoJSON Point.
- `"unknown"` is stored as the string it is (`PyStr("unknown")`). Only the
  resolved kind (`Unknown`) tells it apart from a word that happens to be "unknown".
- GeoJSON values are the dicts the code builds. They have the keys `"type"` and `"coordinates"`.
- The polygon's ring is four fresh coordinate pairs. The comment at
  restoreMongo.py:107 says the last pair closes the ring, but the code does not
  repeat the first pair. `PolygonRingMayBeOpen` exhibits draws that give an open ring.
- `recreate_collection` has two more endings than insert, synthesise and skip.
  `Errored` is a `TypeError` or `AttributeError` raised inside the `try`
  before any insertion. It is printed, and the success message still follows.
  `Aborted` happens when `sample_data.get` is called on a truthy non-dict
  (a list, a string, a number). That `AttributeError` is raised outside the `try` and ends the run.

## Model

| member | source | states |
|---|---|---|
| `Values.Truthy` | restoreMongo.py:132-140 | Python truthiness as the two `if` tests use it: None is false, and a string, list or dict is true exactly when it is non-empty |
| `Values.SubstringIff` | restoreMongo.py:65-109 | Python's `in` on two strings (the recursive `IsSubstring`) holds exactly when the tag sits in the string at some position |
| `Values.AbsentCharacter` | restoreMongo.py:65-109 | a tag holding a character the searched string lacks is not found in it by `in` |
| `Values.Contains` | restoreMongo.py:65-109 | `key in container` raises TypeError exactly for containers that are not a dict, list or string; on a string it is a positional substring test |
| `TypeTags.Resolve` | restoreMongo.py:65-111 | the cascade never chooses a recognised kind whose tag is not recorded for the field |
| `TypeTags.ResolvePicksFirstRecorded` | restoreMongo.py:65-109 | a recognised kind is chosen if and only if its tag is recorded and no tag tested earlier in the fixed order (string, int, long, double, Decimal128, boolean, date, array, object, ObjectId, null, GeoJSON Point, LineString, Polygon) is |
| `TypeTags.ResolveUnknownIff` | restoreMongo.py:110-111 | the fall-through to "unknown" happens exactly when no recorded tag is one of the fourteen recognised strings |
| `TypeTags.ResolveIgnoresOrder` | restoreMongo.py:65-109 | two tag lists that agree on which recognised tags they contain give the same kind, whatever their order, repeats or unrecognised extras |
| `TypeTags.ResolveExamples` | restoreMongo.py:65-111 | `["double","int"]` gives int; `["null","string"]` gives string; `"objectId"`, `"decimal128"` and the empty list fall through to unknown (matching is case-sensitive) |
| `TypeTags.PrecedenceLists` | restoreMongo.py:65-109 | each recognised kind's tag stands in the precedence list at the kind's rank |
| `TypeTags.KeysAmong` | restoreMongo.py:65-109 | for a dict entry, the tags kept are exactly the listed tags that are keys of the dict |
| `TypeTags.SubstringsAmong` | restoreMongo.py:65-109 | for a string entry, the tags kept are exactly the listed tags that occur inside the string |
| `TypeTags.StringItems` | restoreMongo.py:65-109 | for a list entry, a tag is kept exactly when the list holds that string as an element |
| `TypeTags.StringListItems` | restoreMongo.py:63-65 | on a list made only of strings, the tag list is that list itself, in order |
| `TypeTags.TagList` | restoreMongo.py:63-113 | an entry yields a tag list exactly when Python's `in` can search it (otherwise the field is dropped by the except); every recognised tag is in the list exactly when Python's `in` finds it in the entry; a list of strings is taken as it is |
| `TypeTags.ResolveEntry` | restoreMongo.py:63-113 | an entry yields a kind exactly when it is a dict, list or string; for anything else the first `in` test raises and the field is dropped |
| `TypeTags.CascadeAgrees` | restoreMongo.py:65-111 | the cascade gives the same kind whether its tests ask membership in the tag list or Python's `in` on the entry, when the two agree on every recognised tag |
| `TypeTags.ResolveEntryIsCascade` | restoreMongo.py:63-113 | the kind chosen for a raw entry is what the generator's if/elif cascade gives when each test is Python's `in` on that entry, and the entry is dropped exactly when that first test raises |
| `TypeTags.IntInGeoJSONPoint` | restoreMongo.py:67 | `"int" in "GeoJSON Point"` is true: the tag occurs in "Point" |
| `TypeTags.StringNotInGeoJSONPoint` | restoreMongo.py:65 | `"string" in "GeoJSON Point"` is false |
| `TypeTags.StringEntryExample` | restoreMongo.py:63-90 | a plain-string entry "GeoJSON Point" is searched by substring and resolves to int, not to a GeoJSON Point |
| `TypeTags.SingleTagEntry` | restoreMongo.py:63-113 | a list holding one tag string resolves as that tag alone |
| `TypeTags.ListEntryExample` | restoreMongo.py:63-90 | the list `["GeoJSON Point"]` resolves to a GeoJSON Point |
| `TypeTags.PrecedenceHolds` | restoreMongo.py:65-109 | each of the fourteen recognised tags is in the precedence list |
| `TypeTags.FirstRecordedIsPicked` | restoreMongo.py:65-109 | a recorded tag none of whose predecessors in the cascade is recorded is the one chosen |
| `Synthesis.RandInt` | restoreMongo.py:68-70 | `random.randint(lo, hi)` lies in the closed range [lo, hi] |
| `Synthesis.RandIntCovers` | restoreMongo.py:68-70 | every integer of the range is produced by some draw |
| `Synthesis.ObjectIdStandIn` | restoreMongo.py:84 | the ObjectId stand-in is a prefix of the uuid of at most 24 characters, exactly 24 when the uuid is that long |
| `Synthesis.Position` | restoreMongo.py:90 | a coordinate pair is a two-element list [longitude, latitude] |
| `Synthesis.PointValue` | restoreMongo.py:89-90 | a Point is a dict with exactly the keys "type" = "Point" and "coordinates", holding one pair |
| `Synthesis.LineStringValue` | restoreMongo.py:91-99 | a LineString has type "LineString" and exactly 3 coordinate pairs |
| `Synthesis.PolygonRing` | restoreMongo.py:103-108 | the polygon ring is exactly 4 coordinate pairs |
| `Synthesis.PolygonValue` | restoreMongo.py:100-109 | a Polygon has type "Polygon" and exactly one ring of exactly 4 pairs |
| `Synthesis.PolygonRingMayBeOpen` | restoreMongo.py:104-107 | closure is not guaranteed: for some draws the ring's last pair differs from its first |
| `Synthesis.Generate` | restoreMongo.py:65-111 | each kind's value has its fixed shape: int in [1, 100], long in [1000000000, 9999999999], array of exactly 3 strings, object `{"nested_key": <string>}`, ObjectId a string of at most 24 characters, the three GeoJSON shapes, unknown the string "unknown"; the value is None exactly for the null kind |
| `Synthesis.FieldValue` | restoreMongo.py:63-113 | a field gets a value exactly when its entry yields a tag list, and that value is the one generated for the kind its tags resolve to |
| `Synthesis.SyntheticDocument` | restoreMongo.py:59-115 | the document has only schema keys; a field is present exactly when its entry can be searched; each value has the shape of the kind its tags resolve to |
| `Synthesis.GenerateSyntheticDocument` | restoreMongo.py:59-115 | the loop over the schema's items returns exactly `SyntheticDocument(schema, draw)` (loop invariant: the keys stored so far are the visited fields whose entries can be searched) |
| `Synthesis.SyntheticKeysAreSchemaKeys` | restoreMongo.py:61-115 | for a schema of tag lists, the document's keys are exactly the schema's field names (dotted names stay flat keys, nothing is nested or added) and each value is shaped for its resolved kind |
| `Synthesis.NullOnlyWhenNullWins` | restoreMongo.py:65-86 | a field is None if and only if "null" is recorded and none of "string" through "ObjectId" is |
| `Restore.LoadJson` | restoreMongo.py:41-56 | a missing file, an empty file and a non-empty file that fails to parse each give None; a non-empty file that parses gives its parsed content |
| `Restore.SampleDocument` | restoreMongo.py:131-132 | the lookup raises exactly when the loaded sample data is a truthy non-dict; a truthy sample document is the dict's "sample_document" entry |
| `Restore.RecreateCollection` | restoreMongo.py:131-146 | the sample document is inserted if and only if the sample file yields a truthy "sample_document", and what is inserted is that entry of the sample file's dict; the run aborts exactly when the sample file holds a truthy non-dict |
| `Restore.ReportsSuccess` | restoreMongo.py:144-151 | the success message is printed for every outcome except the early return and the uncaught error |
| `Restore.InsertedDocument` | restoreMongo.py:137-143 | a document is handed to insert_one exactly for the sample and synthetic outcomes; it is the sample itself, or the generator's document for the schema (a dict keyed by schema field names, each value shaped as `SyntheticDocument` states) |
| `Restore.SampleWins` | restoreMongo.py:131-139 | a truthy "sample_document" is inserted as it is, and every schema file gives that same outcome (the schema file is never consulted) |
| `Restore.SchemaFileOnlyWithoutSample` | restoreMongo.py:133 | if two schema files lead to different outcomes, the sample file yielded no truthy sample document |
| `Restore.SynthesisIff` | restoreMongo.py:140-143 | a document is synthesised if and only if there is no truthy sample document and the schema file holds a dict whose "schema" entry is a dict; that entry is the schema used |
| `Restore.SkippedIff` | restoreMongo.py:144-151 | the collection is skipped if and only if there is no truthy sample and the schema metadata is falsy or lacks "schema"; the success message is missing only for a skip or an abort |
| `Restore.ErroredIff` | restoreMongo.py:136-149 | an exception is raised inside the `try` before any insertion if and only if there is no truthy sample, the schema metadata is truthy, and `"schema" in` it raises or it holds "schema" without being a dict whose "schema" entry is a dict |
| `Restore.AbsentFilesAlike` | restoreMongo.py:41-56 | a missing, an empty and an unparsable file load alike and give the same outcome, in either position |
| `Restore.NothingUsableSkips` | restoreMongo.py:131-146 | with both files missing the collection is skipped |
| `Restore.InsertedDocumentSource` | restoreMongo.py:131-143 | a sample outcome inserts the sample file's "sample_document" entry, whatever the draws; a synthetic outcome inserts the generator's document for the schema file's "schema" entry, keyed exactly by the schema's fields when every entry is a tag list |

## Left out

- MongoDB I/O: `MongoClient`, `list_collection_names`, the drop of an existing collection and `insert_one`. An insertion is an opaque step. Its exceptions are caught and do not change the outcome or the success message.
- The file system: `os.path.exists`, `getsize`, `open` and `json.load` are replaced by their result (`JsonFile`). A decoding error other than `JSONDecodeError` (a file that is not UTF-8) is not part of this model.
- `main`'s directory traversal and the connection configuration (restoreMongo.py:21-35, 154-186). Printing is left out, except whether the success message appears (`ReportsSuccess`).
- The concrete values from `faker` and `random` (words, dates, uuid4, coordinates, the boolean choice). They are inputs (`Draws`), and no claim is made about coordinate ranges.
- Floating point: `double` and `Decimal128` values are a `PyFloat`/`PyDecimal128` carrying an unconstrained real. The rounding to 2 and 6 digits and the decimal-string construction are not modelled.
- Library failures inside the per-field `try` (a faker call raising) are not modelled. Only the `TypeError` raised by testing a non-iterable entry is.
- Iteration order of the schema dict: the model fills the document in an arbitrary order. Each field's draws are an input keyed by its name, so the result does not depend on that order. How the real random streams are shared between fields is not captured.
- The field order of the synthesised document. The model's `map` does not keep the insertion order of the generated dict, which becomes the field order of the inserted document. Only the set of fields and their values are modelled.
