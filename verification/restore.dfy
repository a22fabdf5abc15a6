/**
 * How one collection is recreated: which source the script uses (the captured
 * sample document, a document synthesised from the captured schema, or
 * nothing), decided from the contents of the collection's two metadata files.
 * Database calls are not modelled: an insertion is an opaque step whose
 * failure is caught and printed and changes nothing in the decision.
 */
module Restore {
  import opened Values
  import opened Synthesis

  /** A metadata file as load_json finds it: absent, or present with a size in
      bytes and the result of parsing it (`None` when json.load raises
      JSONDecodeError). */
  datatype JsonFile = Missing | Present(size: nat, parsed: Option<Value>)

  /** load_json: the parsed content, or None for a missing, empty or malformed file. */
  function LoadJson(file: JsonFile): (v: Value)
    ensures file.Missing? ==> v == PyNone
    ensures file.Present? && file.size == 0 ==> v == PyNone
    ensures file.Present? && file.size > 0 && file.parsed.Some? ==> v == file.parsed.value
    ensures file.Present? && file.size > 0 && file.parsed.None? ==> v == PyNone
  {
    match file
    case Missing => PyNone
    case Present(size, parsed) =>
      if size == 0 then PyNone
      else match parsed
        case Some(content) => content
        case None => PyNone
  }

  /** How recreate_collection ends for one collection. */
  datatype Outcome =
    | InsertSample(document: Value)             // the sample document is handed to insert_one
    | InsertSynthetic(schema: map<string, Value>) // a document is generated from this schema and inserted
    | Skipped                                   // early return: no usable metadata, no success message
    | Errored                                   // an exception inside the try before any insertion;
                                                // printed, then the success message follows
    | Aborted                                   // `.get` on a truthy non-dict sample file: an uncaught
                                                // AttributeError that ends the whole run

  /** `sample_data.get("sample_document", None) if sample_data else None`;
      `None` is the AttributeError raised when sample_data is a truthy value
      that is not a dict. */
  function SampleDocument(sampleData: Value): (r: Option<Value>)
    ensures r.None? <==> Truthy(sampleData) && !sampleData.PyDict?
    ensures r.Some? && Truthy(r.value) ==>
      sampleData.PyDict? && "sample_document" in sampleData.fields && r.value == sampleData.fields["sample_document"]
  {
    if !Truthy(sampleData) then Some(PyNone)
    else match sampleData
      case PyDict(fields) => Some(if "sample_document" in fields then fields["sample_document"] else PyNone)
      case _ => None
  }

  /** recreate_collection (restoreMongo.py:131-146), given the two metadata files. */
  function RecreateCollection(sampleFile: JsonFile, schemaFile: JsonFile): (o: Outcome)
    ensures o.InsertSample? ==> Truthy(o.document)
    ensures o.InsertSample? <==>
      SampleDocument(LoadJson(sampleFile)).Some? && Truthy(SampleDocument(LoadJson(sampleFile)).value)
    ensures o.InsertSample? ==>
      && LoadJson(sampleFile).PyDict?
      && "sample_document" in LoadJson(sampleFile).fields
      && o.document == LoadJson(sampleFile).fields["sample_document"]
    ensures o.Aborted? <==> Truthy(LoadJson(sampleFile)) && !LoadJson(sampleFile).PyDict?
  {
    match SampleDocument(LoadJson(sampleFile))
    case None => Aborted
    case Some(sampleDocument) =>
      if Truthy(sampleDocument) then InsertSample(sampleDocument)
      else
        // the schema file is loaded only on this path
        var schemaMetadata := LoadJson(schemaFile);
        if !Truthy(schemaMetadata) then Skipped
        else match Contains(schemaMetadata, "schema")
          case None => Errored            // `"schema" in` a number or bool: TypeError
          case Some(false) => Skipped
          case Some(true) =>
            match schemaMetadata
            case PyDict(fields) =>
              (match fields["schema"]
               case PyDict(schema) => InsertSynthetic(schema)
               case _ => Errored)           // `.items()` on a non-dict schema: AttributeError
            case _ => Errored               // a list or string indexed by "schema": TypeError
  }

  /** Whether "Collection ... recreated successfully!" is printed: on every path
      but the early return (and the uncaught error), whether or not the
      insertion itself raised. */
  predicate ReportsSuccess(o: Outcome)
    ensures ReportsSuccess(o) <==> o != Skipped && o != Aborted
  {
    o.InsertSample? || o.InsertSynthetic? || o.Errored?
  }

  /** The document handed to insert_one, if the outcome inserts one. */
  function InsertedDocument(o: Outcome, draw: string -> Draws): (r: Option<Value>)
    ensures r.Some? <==> o.InsertSample? || o.InsertSynthetic?
    ensures o.InsertSample? ==> r == Some(o.document)
    ensures o.InsertSynthetic? ==> r.value.PyDict? && r.value.fields.Keys <= o.schema.Keys
    ensures o.InsertSynthetic? ==> r == Some(PyDict(SyntheticDocument(o.schema, draw)))
  {
    match o
    case InsertSample(document) => Some(document)
    case InsertSynthetic(schema) => Some(PyDict(SyntheticDocument(schema, draw)))
    case _ => None
  }

  /** A truthy sample document is inserted as it is, and the schema file is
      never consulted: any schema file gives the same outcome. */
  lemma SampleWins(sampleFile: JsonFile, schemaFile: JsonFile, otherSchemaFile: JsonFile)
    requires LoadJson(sampleFile).PyDict?
    requires "sample_document" in LoadJson(sampleFile).fields
    requires Truthy(LoadJson(sampleFile).fields["sample_document"])
    ensures RecreateCollection(sampleFile, schemaFile) == RecreateCollection(sampleFile, otherSchemaFile)
    ensures RecreateCollection(sampleFile, schemaFile) == InsertSample(LoadJson(sampleFile).fields["sample_document"])
  {
  }

  /** Conversely, the schema file can make a difference only when the sample
      file yields no truthy sample document. */
  lemma {:induction false} SchemaFileOnlyWithoutSample(sampleFile: JsonFile, schemaFile: JsonFile, otherSchemaFile: JsonFile)
    requires RecreateCollection(sampleFile, schemaFile) != RecreateCollection(sampleFile, otherSchemaFile)
    ensures SampleDocument(LoadJson(sampleFile)).Some?
    ensures !Truthy(SampleDocument(LoadJson(sampleFile)).value)
  {
  }

  /** A document is synthesised exactly when there is no truthy sample document
      and the schema file holds a dict whose "schema" entry is a dict. */
  lemma SynthesisIff(sampleFile: JsonFile, schemaFile: JsonFile)
    ensures RecreateCollection(sampleFile, schemaFile).InsertSynthetic? <==>
      && SampleDocument(LoadJson(sampleFile)).Some?
      && !Truthy(SampleDocument(LoadJson(sampleFile)).value)
      && LoadJson(schemaFile).PyDict?
      && "schema" in LoadJson(schemaFile).fields
      && LoadJson(schemaFile).fields["schema"].PyDict?
    ensures RecreateCollection(sampleFile, schemaFile).InsertSynthetic? ==>
      RecreateCollection(sampleFile, schemaFile).schema == LoadJson(schemaFile).fields["schema"].fields
  {
  }

  /** The function returns early, without the success message, exactly when
      there is no truthy sample document and the loaded schema metadata is
      falsy or does not contain "schema". */
  lemma SkippedIff(sampleFile: JsonFile, schemaFile: JsonFile)
    ensures RecreateCollection(sampleFile, schemaFile) == Skipped <==>
      && SampleDocument(LoadJson(sampleFile)).Some?
      && !Truthy(SampleDocument(LoadJson(sampleFile)).value)
      && (!Truthy(LoadJson(schemaFile)) || Contains(LoadJson(schemaFile), "schema") == Some(false))
    ensures !ReportsSuccess(RecreateCollection(sampleFile, schemaFile)) <==>
      RecreateCollection(sampleFile, schemaFile) in {Skipped, Aborted}
  {
  }

  /** An exception is raised inside the `try` before any insertion exactly
      when there is no truthy sample document, the schema metadata is truthy,
      and either `"schema" in` it raises (a number or a bool), or it contains
      "schema" but is not a dict whose "schema" entry is a dict. */
  lemma ErroredIff(sampleFile: JsonFile, schemaFile: JsonFile)
    ensures RecreateCollection(sampleFile, schemaFile) == Errored <==>
      && SampleDocument(LoadJson(sampleFile)).Some?
      && !Truthy(SampleDocument(LoadJson(sampleFile)).value)
      && Truthy(LoadJson(schemaFile))
      && (|| Contains(LoadJson(schemaFile), "schema").None?
          || (&& Contains(LoadJson(schemaFile), "schema") == Some(true)
              && !(LoadJson(schemaFile).PyDict? && LoadJson(schemaFile).fields["schema"].PyDict?)))
  {
  }

  /** A missing, an empty and a malformed file all count as absent, for
      either of the two files. */
  lemma AbsentFilesAlike(size: nat, content: Option<Value>, other: JsonFile)
    ensures LoadJson(Present(0, content)) == LoadJson(Missing)
    ensures LoadJson(Present(size, None)) == LoadJson(Missing)
    ensures RecreateCollection(Present(0, content), other) == RecreateCollection(Missing, other)
    ensures RecreateCollection(Present(size, None), other) == RecreateCollection(Missing, other)
    ensures RecreateCollection(other, Present(0, content)) == RecreateCollection(other, Missing)
    ensures RecreateCollection(other, Present(size, None)) == RecreateCollection(other, Missing)
  {
  }

  /** With neither file usable the collection is skipped. */
  lemma NothingUsableSkips()
    ensures RecreateCollection(Missing, Missing) == Skipped
  {
  }

  /** When a sample document is inserted, it is the sample file's
      "sample_document" entry, whatever the random draws; when a document is
      synthesised, it is the generator's output for the schema file's
      "schema" entry, and for a schema whose every entry is a list of tag
      strings its keys are exactly the schema's field names. */
  lemma {:induction false} InsertedDocumentSource(sampleFile: JsonFile, schemaFile: JsonFile, draw: string -> Draws)
    ensures var o := RecreateCollection(sampleFile, schemaFile);
      o.InsertSample? ==> InsertedDocument(o, draw) == Some(LoadJson(sampleFile).fields["sample_document"])
    ensures var o := RecreateCollection(sampleFile, schemaFile);
      o.InsertSynthetic? ==>
        InsertedDocument(o, draw) == Some(PyDict(SyntheticDocument(LoadJson(schemaFile).fields["schema"].fields, draw)))
    ensures var o := RecreateCollection(sampleFile, schemaFile);
      o.InsertSynthetic? && TagListSchema(o.schema) ==>
        InsertedDocument(o, draw).value.fields.Keys == o.schema.Keys
  {
    var o := RecreateCollection(sampleFile, schemaFile);
    SynthesisIff(sampleFile, schemaFile);
    if o.InsertSynthetic? && TagListSchema(o.schema) {
      SyntheticKeysAreSchemaKeys(o.schema, draw);
    }
  }
}
