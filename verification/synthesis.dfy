/**
 * The synthetic-document generator: one generated value per schema field,
 * stored under the field's own name in a flat dict.
 *
 * The random and faker calls are not modelled as libraries; what they return
 * for a field is an input, `Draws`. A field's draws depend on its name only,
 * and names in a schema dict are distinct, so every run of the generator is
 * described by some choice of `draw: string -> Draws`.
 */
module Synthesis {
  import opened Values
  import opened TypeTags

  /** What the random sources return while one field is generated. */
  datatype Draws = Draws(
    word: nat -> string,       // successive faker.word() results
    pick: nat,                 // the raw draw behind random.randint
    uniform: real,             // random.uniform(...), already rounded
    coin: bool,                // random.choice([True, False])
    dateTime: string,          // faker.date_time().isoformat()
    uuid: string,              // faker.uuid4()
    longitude: nat -> real,    // successive faker.longitude() results
    latitude: nat -> real)     // successive faker.latitude() results

  /** random.randint(lo, hi): an integer of the closed range, chosen by `pick`. */
  function RandInt(lo: int, hi: int, pick: nat): (r: int)
    requires lo <= hi
    ensures lo <= r <= hi
  {
    lo + pick % (hi - lo + 1)
  }

  /** No value of the range is out of reach of RandInt. */
  lemma RandIntCovers(lo: int, hi: int, x: int)
    requires lo <= x <= hi
    ensures RandInt(lo, hi, x - lo) == x
  {
  }

  /** faker.uuid4()[:24]: the first 24 characters, or all of a shorter string. */
  function ObjectIdStandIn(uuid: string): (r: string)
    ensures |r| <= 24 && r <= uuid
    ensures |uuid| >= 24 ==> |r| == 24
  {
    if |uuid| <= 24 then uuid else uuid[..24]
  }

  /** The k-th coordinate pair [faker.longitude(), faker.latitude()]. */
  function Position(d: Draws, k: nat): (r: Value)
    ensures IsPosition(r)
  {
    PyList([PyDecimal(d.longitude(k)), PyDecimal(d.latitude(k))])
  }

  predicate IsPosition(v: Value)
  {
    v.PyList? && |v.items| == 2 && v.items[0].PyDecimal? && v.items[1].PyDecimal?
  }

  /** A dict with exactly the keys "type" (naming the geometry) and "coordinates". */
  predicate IsGeometry(v: Value, kind: string)
  {
    && v.PyDict?
    && v.fields.Keys == {"type", "coordinates"}
    && v.fields["type"] == PyStr(kind)
    && v.fields["coordinates"].PyList?
  }

  /** A list of exactly `n` coordinate pairs. */
  predicate IsPositions(v: Value, n: nat)
  {
    v.PyList? && |v.items| == n && forall p :: p in v.items ==> IsPosition(p)
  }

  function PointValue(d: Draws): (r: Value)
    ensures IsGeometry(r, "Point") && IsPosition(r.fields["coordinates"])
  {
    PyDict(map["type" := PyStr("Point"), "coordinates" := Position(d, 0)])
  }

  function LineStringValue(d: Draws): (r: Value)
    ensures IsGeometry(r, "LineString") && IsPositions(r.fields["coordinates"], 3)
  {
    PyDict(map["type" := PyStr("LineString"),
            "coordinates" := PyList([Position(d, 0), Position(d, 1), Position(d, 2)])])
  }

  /** The polygon's single ring: four freshly drawn pairs. Nothing makes the
      last pair repeat the first. */
  function PolygonRing(d: Draws): (r: Value)
    ensures IsPositions(r, 4)
  {
    PyList([Position(d, 0), Position(d, 1), Position(d, 2), Position(d, 3)])
  }

  function PolygonValue(d: Draws): (r: Value)
    ensures IsGeometry(r, "Polygon")
    ensures |r.fields["coordinates"].items| == 1 && IsPositions(r.fields["coordinates"].items[0], 4)
  {
    PyDict(map["type" := PyStr("Polygon"), "coordinates" := PyList([PolygonRing(d)])])
  }

  /** The ring is not necessarily closed: there are draws for which its last
      pair differs from its first. */
  lemma PolygonRingMayBeOpen()
    ensures exists d: Draws :: PolygonRing(d).items[0] != PolygonRing(d).items[3]
  {
    var d := Draws(_ => "", 0, 0.0, false, "", "", k => k as real, _ => 0.0);
    assert PolygonRing(d).items[0].items[0] == PyDecimal(0.0);
    assert PolygonRing(d).items[3].items[0] == PyDecimal(3.0);
  }

  /** The fixed structure and bounds of a value generated for kind `k`. */
  predicate Shaped(k: Kind, v: Value)
  {
    match k
    case String => v.PyStr?
    case Int => v.PyInt? && 1 <= v.i <= 100
    case Long => v.PyInt? && 1000000000 <= v.i <= 9999999999
    case Double => v.PyFloat?
    case Decimal128 => v.PyDecimal128?
    case Boolean => v.PyBool?
    case Date => v.PyStr?
    case Array => v.PyList? && |v.items| == 3 && forall e :: e in v.items ==> e.PyStr?
    case Object => v.PyDict? && v.fields.Keys == {"nested_key"} && v.fields["nested_key"].PyStr?
    case ObjectId => v.PyStr? && |v.s| <= 24
    case Null => v == PyNone
    case GeoPoint => IsGeometry(v, "Point") && IsPosition(v.fields["coordinates"])
    case GeoLineString => IsGeometry(v, "LineString") && IsPositions(v.fields["coordinates"], 3)
    case GeoPolygon =>
      && IsGeometry(v, "Polygon")
      && |v.fields["coordinates"].items| == 1
      && IsPositions(v.fields["coordinates"].items[0], 4)
    case Unknown => v == PyStr("unknown")
  }

  /** The value one branch of the cascade stores for a field. */
  function Generate(k: Kind, d: Draws): (v: Value)
    ensures Shaped(k, v)
    ensures v == PyNone <==> k == Null
  {
    match k
    case String => PyStr(d.word(0))
    case Int => PyInt(RandInt(1, 100, d.pick))
    case Long => PyInt(RandInt(1000000000, 9999999999, d.pick))
    case Double => PyFloat(d.uniform)
    case Decimal128 => PyDecimal128(d.uniform)
    case Boolean => PyBool(d.coin)
    case Date => PyStr(d.dateTime)
    case Array => PyList([PyStr(d.word(0)), PyStr(d.word(1)), PyStr(d.word(2))])
    case Object => PyDict(map["nested_key" := PyStr(d.word(0))])
    case ObjectId => PyStr(ObjectIdStandIn(d.uuid))
    case Null => PyNone
    case GeoPoint => PointValue(d)
    case GeoLineString => LineStringValue(d)
    case GeoPolygon => PolygonValue(d)
    case Unknown => PyStr("unknown")
  }

  /** What the generator stores for a field with recorded entry `types`, or
      `None` when the entry cannot be searched and the field is left out. */
  function FieldValue(types: Value, d: Draws): (r: Option<Value>)
    ensures r.Some? <==> TagList(types).Some?
    ensures r.Some? ==> r.value == Generate(Resolve(TagList(types).value), d)
  {
    match ResolveEntry(types)
    case Some(k) => Some(Generate(k, d))
    case None => None
  }

  /** The document the generator returns for `schema`: one entry per field
      whose recorded entry can be searched, under the field's own name. */
  function SyntheticDocument(schema: map<string, Value>, draw: string -> Draws): (doc: map<string, Value>)
    ensures doc.Keys <= schema.Keys
    ensures forall f :: f in schema ==> (f in doc <==> TagList(schema[f]).Some?)
    ensures forall f :: f in doc ==> Shaped(Resolve(TagList(schema[f]).value), doc[f])
  {
    map f | f in schema && FieldValue(schema[f], draw(f)).Some? :: FieldValue(schema[f], draw(f)).value
  }

  /** generate_synthetic_document: fill a fresh dict field by field. */
  method GenerateSyntheticDocument(schema: map<string, Value>, draw: string -> Draws)
    returns (doc: map<string, Value>)
    ensures doc == SyntheticDocument(schema, draw)
  {
    doc := map[];
    var pending := schema.Keys;
    while pending != {}
      invariant pending <= schema.Keys
      invariant forall f :: f in doc <==> f in schema && f !in pending && FieldValue(schema[f], draw(f)).Some?
      invariant forall f :: f in doc ==> doc[f] == FieldValue(schema[f], draw(f)).value
      decreases pending
    {
      var field :| field in pending;
      match FieldValue(schema[field], draw(field)) {
        case Some(v) => doc := doc[field := v];
        case None =>  // the per-field except: the field is skipped
      }
      pending := pending - {field};
    }
  }

  /** A schema whose every entry is a list of tag strings, as the extractor writes it. */
  predicate TagListSchema(schema: map<string, Value>)
  {
    forall f :: f in schema ==> schema[f].PyList? && forall e :: e in schema[f].items ==> e.PyStr?
  }

  /** For such a schema every field name, dotted or not, becomes exactly one
      flat key of the document, no other key is added, and each value has the
      shape of the kind its tags resolve to. */
  lemma {:induction false} SyntheticKeysAreSchemaKeys(schema: map<string, Value>, draw: string -> Draws)
    requires TagListSchema(schema)
    ensures SyntheticDocument(schema, draw).Keys == schema.Keys
    ensures forall f :: f in schema ==>
      Shaped(Resolve(StringItems(schema[f].items)), SyntheticDocument(schema, draw)[f])
  {
    var doc := SyntheticDocument(schema, draw);
    forall f | f in schema ensures f in doc && Shaped(Resolve(StringItems(schema[f].items)), doc[f]) {
      assert TagList(schema[f]) == Some(StringItems(schema[f].items));
    }
  }

  /** A field is None exactly when "null" is recorded and none of the tags
      tested before it ("string" through "ObjectId") is. */
  lemma {:induction false} NullOnlyWhenNullWins(types: seq<string>, d: Draws)
    ensures Generate(Resolve(types), d) == PyNone <==>
      "null" in types && forall t :: t in Precedence[..10] ==> t !in types
  {
    var earlier := Precedence[..10];
    assert earlier == ["string", "int", "long", "double", "Decimal128", "boolean", "date",
                       "array", "object", "ObjectId"];
    assert Generate(Resolve(types), d) == PyNone <==> Resolve(types) == Null;
  }
}
