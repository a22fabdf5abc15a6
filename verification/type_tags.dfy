/**
 * Which kind of value the synthetic generator produces for one schema field,
 * chosen from the type tags the extractor recorded for that field.
 * The generator tests the recognised tags one after another in a fixed order
 * (an if/elif cascade) and takes the first one present; a field none of whose
 * tags is recognised gets the literal string "unknown".
 */
module TypeTags {
  import opened Values

  datatype Kind =
    | String | Int | Long | Double | Decimal128 | Boolean | Date
    | Array | Object | ObjectId | Null
    | GeoPoint | GeoLineString | GeoPolygon
    | Unknown

  /** The tag string that selects a recognised kind; matching is exact and case-sensitive. */
  function Tag(k: Kind): (t: string)
    requires k != Unknown
  {
    match k
    case String => "string"
    case Int => "int"
    case Long => "long"
    case Double => "double"
    case Decimal128 => "Decimal128"
    case Boolean => "boolean"
    case Date => "date"
    case Array => "array"
    case Object => "object"
    case ObjectId => "ObjectId"
    case Null => "null"
    case GeoPoint => "GeoJSON Point"
    case GeoLineString => "GeoJSON LineString"
    case GeoPolygon => "GeoJSON Polygon"
  }

  /** Position of a kind in the cascade; a smaller rank is tested earlier. */
  function Rank(k: Kind): (r: nat)
  {
    match k
    case String => 0
    case Int => 1
    case Long => 2
    case Double => 3
    case Decimal128 => 4
    case Boolean => 5
    case Date => 6
    case Array => 7
    case Object => 8
    case ObjectId => 9
    case Null => 10
    case GeoPoint => 11
    case GeoLineString => 12
    case GeoPolygon => 13
    case Unknown => 14
  }

  /** The recognised tags, in the order the cascade tests them. */
  const Precedence: seq<string> := [
    "string", "int", "long", "double", "Decimal128", "boolean", "date",
    "array", "object", "ObjectId", "null",
    "GeoJSON Point", "GeoJSON LineString", "GeoJSON Polygon"]

  lemma PrecedenceLists(k: Kind)
    requires k != Unknown
    ensures Rank(k) < |Precedence| && Precedence[Rank(k)] == Tag(k)
  {
  }

  /** The generator's if/elif cascade over the recorded tags of one field. */
  function Resolve(types: seq<string>): (k: Kind)
    ensures k != Unknown ==> Tag(k) in types
  {
    if "string" in types then String
    else if "int" in types then Int
    else if "long" in types then Long
    else if "double" in types then Double
    else if "Decimal128" in types then Decimal128
    else if "boolean" in types then Boolean
    else if "date" in types then Date
    else if "array" in types then Array
    else if "object" in types then Object
    else if "ObjectId" in types then ObjectId
    else if "null" in types then Null
    else if "GeoJSON Point" in types then GeoPoint
    else if "GeoJSON LineString" in types then GeoLineString
    else if "GeoJSON Polygon" in types then GeoPolygon
    else Unknown
  }

  /** Each recognised tag is in the precedence list. */
  lemma PrecedenceHolds()
    ensures "string" in Precedence && "int" in Precedence && "long" in Precedence
    ensures "double" in Precedence && "Decimal128" in Precedence && "boolean" in Precedence
    ensures "date" in Precedence && "array" in Precedence && "object" in Precedence
    ensures "ObjectId" in Precedence && "null" in Precedence && "GeoJSON Point" in Precedence
    ensures "GeoJSON LineString" in Precedence && "GeoJSON Polygon" in Precedence
  {
    assert Precedence[0] == "string" && Precedence[1] == "int" && Precedence[2] == "long";
    assert Precedence[3] == "double" && Precedence[4] == "Decimal128" && Precedence[5] == "boolean";
    assert Precedence[6] == "date" && Precedence[7] == "array" && Precedence[8] == "object";
    assert Precedence[9] == "ObjectId" && Precedence[10] == "null" && Precedence[11] == "GeoJSON Point";
    assert Precedence[12] == "GeoJSON LineString" && Precedence[13] == "GeoJSON Polygon";
  }

  /** A recognised kind `k` is chosen exactly when its tag is recorded and no
      tag tested before it is. */
  lemma {:induction false} ResolvePicksFirstRecorded(types: seq<string>, k: Kind)
    requires k != Unknown
    ensures Resolve(types) == k <==>
      Tag(k) in types && forall h: Kind :: h != Unknown && Rank(h) < Rank(k) ==> Tag(h) !in types
  {
    if Resolve(types) == k {
      forall h: Kind | h != Unknown && Rank(h) < Rank(k) ensures Tag(h) !in types {
        KindOfRank(h);
      }
    }
    if Tag(k) in types && forall h: Kind :: h != Unknown && Rank(h) < Rank(k) ==> Tag(h) !in types {
      FirstRecordedIsPicked(types, k);
    }
  }

  /** The choice is never later than a recorded tag whose predecessors are all absent. */
  lemma FirstRecordedIsPicked(types: seq<string>, k: Kind)
    requires k != Unknown && Tag(k) in types
    requires forall h: Kind :: h != Unknown && Rank(h) < Rank(k) ==> Tag(h) !in types
    ensures Resolve(types) == k
  {
    var r := Resolve(types);
    assert !(Rank(r) < Rank(k));
    KindOfRank(r);
    KindOfRank(k);
  }

  /** Rank tells the kinds apart: each kind is the one at its rank. */
  lemma KindOfRank(k: Kind)
    ensures k == [String, Int, Long, Double, Decimal128, Boolean, Date, Array, Object,
                  ObjectId, Null, GeoPoint, GeoLineString, GeoPolygon, Unknown][Rank(k)]
  {
  }

  /** "unknown" is the outcome exactly when no recorded tag is one of the recognised ones. */
  lemma ResolveUnknownIff(types: seq<string>)
    ensures Resolve(types) == Unknown <==> forall t :: t in Precedence ==> t !in types
  {
  }

  /** Only membership matters: reordering or repeating the recorded tags, or
      adding unrecognised ones, does not change the choice. */
  lemma {:induction false} ResolveIgnoresOrder(a: seq<string>, b: seq<string>)
    requires forall t :: t in Precedence ==> (t in a <==> t in b)
    ensures Resolve(a) == Resolve(b)
  {
    PrecedenceHolds();
  }

  /** Examples: the earlier-tested tag wins whatever the recorded order, and
      tags differing only in case are not recognised. */
  lemma ResolveExamples()
    ensures Resolve(["double", "int"]) == Int
    ensures Resolve(["null", "string"]) == String
    ensures Resolve(["objectId"]) == Unknown
    ensures Resolve(["decimal128"]) == Unknown
    ensures Resolve([]) == Unknown
    ensures Resolve(["GeoJSON Point"]) == GeoPoint
  {
  }

  // ---- Schema entries as the generator receives them from json.load ----

  /** The tags in `tags` that are keys of `m`. */
  function KeysAmong(tags: seq<string>, m: map<string, Value>): (r: seq<string>)
    ensures forall t :: t in r <==> t in tags && t in m
  {
    if tags == [] then [] else (if tags[0] in m then [tags[0]] else []) + KeysAmong(tags[1..], m)
  }

  /** The tags in `tags` that occur inside the string `s`. */
  function SubstringsAmong(tags: seq<string>, s: string): (r: seq<string>)
    ensures forall t :: t in r <==> t in tags && IsSubstring(t, s)
  {
    if tags == [] then [] else (if IsSubstring(tags[0], s) then [tags[0]] else []) + SubstringsAmong(tags[1..], s)
  }

  /** The strings among the elements of a list, in order. */
  function StringItems(items: seq<Value>): (r: seq<string>)
    ensures forall t :: t in r <==> PyStr(t) in items
  {
    if items == [] then []
    else (if items[0].PyStr? then [items[0].s] else []) + StringItems(items[1..])
  }

  /** A recorded schema entry read as a tag list for the cascade. A list is
      searched element by element, a dict by key and a string by substring
      (Python's `in`); any other entry makes the first `in` test raise
      TypeError, which is `None` here. */
  function TagList(types: Value): (r: Option<seq<string>>)
    ensures r.Some? <==> Contains(types, "string").Some?
    ensures r.Some? ==> forall t :: t in Precedence ==> (t in r.value <==> Contains(types, t) == Some(true))
    ensures types.PyList? && (forall e :: e in types.items ==> e.PyStr?) ==>
      r == Some(seq(|types.items|, i requires 0 <= i < |types.items| => types.items[i].s))
  {
    match types
    case PyList(items) =>
      StringListItems(items);
      Some(StringItems(items))
    case PyDict(fields) => Some(KeysAmong(Precedence, fields))
    case PyStr(s) => Some(SubstringsAmong(Precedence, s))
    case _ => None
  }

  /** On a list made only of strings, StringItems is the list of those strings. */
  lemma {:induction false} StringListItems(items: seq<Value>)
    ensures (forall e :: e in items ==> e.PyStr?) ==>
      StringItems(items) == seq(|items|, i requires 0 <= i < |items| => items[i].s)
  {
    if items != [] && forall e :: e in items ==> e.PyStr? {
      var rest := items[1..];
      assert forall e :: e in rest ==> e in items;
      StringListItems(rest);
      assert seq(|items|, i requires 0 <= i < |items| => items[i].s) ==
        [items[0].s] + seq(|rest|, i requires 0 <= i < |rest| => rest[i].s);
    }
  }

  /** The kind chosen for a recorded entry, or `None` when testing it raises TypeError. */
  function ResolveEntry(types: Value): (r: Option<Kind>)
    ensures r.None? <==> !(types.PyDict? || types.PyList? || types.PyStr?)
  {
    match TagList(types)
    case Some(tags) => Some(Resolve(tags))
    case None => None
  }

  /** Python's `tag in types` succeeded and found the tag. */
  predicate Finds(types: Value, tag: string)
  {
    Contains(types, tag) == Some(true)
  }

  /** The generator's cascade run directly on the raw entry, test by test, with
      Python's `in`: the first test raising TypeError ends it with `None`. */
  function EntryCascade(types: Value): (r: Option<Kind>)
  {
    if Contains(types, "string").None? then None
    else Some(
      if Finds(types, "string") then String
      else if Finds(types, "int") then Int
      else if Finds(types, "long") then Long
      else if Finds(types, "double") then Double
      else if Finds(types, "Decimal128") then Decimal128
      else if Finds(types, "boolean") then Boolean
      else if Finds(types, "date") then Date
      else if Finds(types, "array") then Array
      else if Finds(types, "object") then Object
      else if Finds(types, "ObjectId") then ObjectId
      else if Finds(types, "null") then Null
      else if Finds(types, "GeoJSON Point") then GeoPoint
      else if Finds(types, "GeoJSON LineString") then GeoLineString
      else if Finds(types, "GeoJSON Polygon") then GeoPolygon
      else Unknown)
  }

  /** Reading the entry as a tag list and then running the cascade gives what
      the cascade gives on the raw entry. */
  lemma {:induction false} ResolveEntryIsCascade(types: Value)
    ensures ResolveEntry(types) == EntryCascade(types)
  {
    match TagList(types)
    case None =>
    case Some(tags) =>
      forall t | t in Precedence ensures t in tags <==> Finds(types, t) { }
      CascadeAgrees(tags, types);
  }

  /** The two cascades agree when membership in `tags` and Python's `in` on
      `types` agree on every recognised tag. */
  lemma CascadeAgrees(tags: seq<string>, types: Value)
    requires Contains(types, "string").Some?
    requires forall t :: t in Precedence ==> (t in tags <==> Finds(types, t))
    ensures EntryCascade(types) == Some(Resolve(tags))
  {
    PrecedenceHolds();
  }

  lemma IntInGeoJSONPoint()
    ensures IsSubstring("int", "GeoJSON Point")
  {
    var s := "GeoJSON Point";
    assert s[10] == 'i' && s[11] == 'n' && s[12] == 't';
    assert OccursAt("int", s, 10);
    SubstringIff("int", s);
  }

  lemma StringNotInGeoJSONPoint()
    ensures !IsSubstring("string", "GeoJSON Point")
  {
    AbsentCharacter("string", "GeoJSON Point", 's');
  }

  /** A plain-string entry is searched by substring: "GeoJSON Point" contains
      "int" (in "Point") and not "string", so it resolves to int. */
  lemma StringEntryExample()
    ensures ResolveEntry(PyStr("GeoJSON Point")) == Some(Int)
  {
    var v := PyStr("GeoJSON Point");
    IntInGeoJSONPoint();
    StringNotInGeoJSONPoint();
    ResolveEntryIsCascade(v);
    assert Contains(v, "string") == Some(false);
    assert Finds(v, "int");
  }

  /** The list holding that one tag resolves to a GeoJSON Point. */
  lemma ListEntryExample()
    ensures ResolveEntry(PyList([PyStr("GeoJSON Point")])) == Some(GeoPoint)
  {
    SingleTagEntry("GeoJSON Point");
    ResolveExamples();
  }

  /** A list holding one tag is resolved as that tag alone. */
  lemma SingleTagEntry(tag: string)
    ensures ResolveEntry(PyList([PyStr(tag)])) == Some(Resolve([tag]))
  {
    var items := [PyStr(tag)];
    assert StringItems(items) == [tag] by {
      assert items[1..] == [];
    }
  }


}
