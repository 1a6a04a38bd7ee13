/**
 * The protobuf-to-JSON-Schema converter of the forms package: a fixed schema
 * per known message family, titled with the message's short name, and the UI
 * hints the form renderer reads.
 */
module SchemaConverter {
  import opened Wrappers
  import opened Strings

  /** A JSON value. Objects are maps, so the order of their keys is not kept. */
  datatype Json =
    | JNull
    | JBool(b: bool)
    | JNumber(n: int)
    | JString(s: string)
    | JArray(items: seq<Json>)
    | JObject(fields: map<string, Json>)

  type JsonObject = map<string, Json>

  /** JavaScript truthiness; a missing key reads as `undefined`, which is falsy. */
  predicate Truthy(v: Option<Json>) {
    match v
    case None => false
    case Some(JNull) => false
    case Some(JBool(b)) => b
    case Some(JNumber(n)) => n != 0
    case Some(JString(s)) => s != ""
    case Some(_) => true
  }

  function Get(o: JsonObject, key: string): Option<Json> {
    if key in o then Some(o[key]) else None
  }

  /** `field.type === t` */
  predicate HasType(field: Json, t: string) {
    field.JObject? && "type" in field.fields && field.fields["type"] == JString(t)
  }

  // ---------------------------------------------------------------- options

  /** How a caller's options object sets a flag: not at all, to `undefined`, or to a boolean. */
  datatype OptionFlag = Unset | SetUndefined | SetTo(value: bool)

  datatype ConversionOptions = ConversionOptions(addUiHints: OptionFlag, includeComments: OptionFlag)

  /** A flag after `{ flag: true, ...options }`: `None` is `undefined`. */
  function WithDefaultTrue(flag: OptionFlag): (v: Option<bool>)
    ensures flag.Unset? ==> v == Some(true)
    ensures flag.SetTo? ==> v == Some(flag.value)
    ensures flag.SetUndefined? ==> v == None
  {
    match flag
    case Unset => Some(true)
    case SetUndefined => None
    case SetTo(b) => Some(b)
  }

  // ---------------------------------------------------------------- schemas

  function Field(t: string, title: string): Json {
    JObject(map["type" := JString(t), "title" := JString(title)])
  }

  function TextareaField(title: string): Json {
    JObject(map["type" := JString("string"), "title" := JString(title), "ui:widget" := JString("textarea")])
  }

  function ObjectOf(properties: JsonObject): Json {
    JObject(map["type" := JString("object"), "properties" := JObject(properties)])
  }

  /** The properties of an `ApplyMappingRequest`: the document and its mapping rules. */
  function ApplyMappingProperties(): JsonObject {
    map[
      "document" := JObject(map[
        "type" := JString("object"),
        "title" := JString("Document"),
        "description" := JString("The PipeDoc to apply mappings to"),
        "properties" := JObject(map[
          "docId" := Field("string", "Document ID"),
          "title" := Field("string", "Title"),
          "body" := TextareaField("Body")])]),
      "rules" := JObject(map[
        "type" := JString("array"),
        "title" := JString("Mapping Rules"),
        "items" := ObjectOf(map[
          "candidateMappings" := JObject(map[
            "type" := JString("array"),
            "title" := JString("Candidate Mappings"),
            "items" := ObjectOf(map[
              "sourceField" := Field("string", "Source Field"),
              "targetField" := Field("string", "Target Field"),
              "transformationType" := Field("string", "Transformation Type")])])])])]
  }

  /** The six fields of a `PipeDoc`. */
  function PipeDocProperties(): JsonObject {
    map[
      "docId" := Field("string", "Document ID"),
      "title" := Field("string", "Title"),
      "body" := TextareaField("Body"),
      "originalMimeType" := Field("string", "Original MIME Type"),
      "lastProcessed" := JObject(map["type" := JString("string"), "title" := JString("Last Processed"),
        "format" := JString("date-time")]),
      "metadata" := JObject(map["type" := JString("object"), "title" := JString("Metadata"),
        "additionalProperties" := JObject(map["type" := JString("string")])])]
  }

  /** The single `data` property of any other message. */
  function DataProperties(): JsonObject {
    map["data" := JObject(map["type" := JString("object"), "title" := JString("Data"),
      "description" := JString("Message data")])]
  }

  /** `extractMessageName`: the text after the last `.`, or `Message` when that is empty. */
  function ExtractMessageName(typeName: string): (name: string)
    ensures name != "" && '.' !in name
    ensures name == "Message" || (name == LastSegment(typeName, '.') && EndsWith(typeName, name))
  {
    OrElse(LastSegment(typeName, '.'), "Message")
  }

  /** A fully qualified name yields its last component. */
  lemma ExtractQualifiedName(package: string, name: string)
    requires name != "" && '.' !in name
    ensures ExtractMessageName(package + "." + name) == name
  {
    LastSegmentAfter(package, '.', name);
    assert package + "." + name == package + ['.'] + name;
  }

  /** The properties chosen by message family: mapping requests first, then PipeDocs, else `data`. */
  function PropertiesFor(typeName: string): JsonObject {
    if Contains(typeName, "ApplyMappingRequest") then ApplyMappingProperties()
    else if Contains(typeName, "PipeDoc") then PipeDocProperties()
    else DataProperties()
  }

  /** The top level of every converted schema: an object with a title that requires nothing. */
  function Header(properties: JsonObject, title: string): JsonObject {
    map[
      "type" := JString("object"),
      "properties" := JObject(properties),
      "required" := JArray([]),
      "title" := JString(title)]
  }

  /** Assigning `schema.properties` swaps in the new properties and keeps the rest of the header. */
  lemma HeaderSetProperties(before: JsonObject, after: JsonObject, title: string)
    ensures Header(before, title)["properties" := JObject(after)] == Header(after, title)
  {
  }

  /** The schema before hints. */
  function BaseSchema(typeName: string): JsonObject {
    Header(PropertiesFor(typeName), ExtractMessageName(typeName))
  }

  // ---------------------------------------------------------------- UI hints

  const ArrayHints: Json := JObject(map["addable" := JBool(true), "removable" := JBool(true)])
  const TextareaHints: Json := JObject(map["rows" := JNumber(5)])

  /** One top-level property with its hints: body text becomes a textarea, arrays get add/remove controls. */
  function HintedField(fieldName: string, field: Json): Json {
    if HasType(field, "string") && Contains(ToLower(fieldName), "body") then
      JObject(field.fields["ui:widget" := JString("textarea")]["ui:options" := TextareaHints])
    else if HasType(field, "array") then
      JObject(field.fields["ui:options" := ArrayHints])
    else field
  }

  /** The schema `addUiHints` leaves behind. Properties that are not an object are left as they are. */
  function WithUiHints(schema: JsonObject): JsonObject {
    var s := if !Truthy(Get(schema, "ui:options")) then schema["ui:options" := JObject(map[])] else schema;
    if "properties" in s && s["properties"].JObject? then s["properties" := JObject(HintedProperties(s["properties"].fields))]
    else s
  }

  /** Each top-level property with its hints. */
  function HintedProperties(props: JsonObject): JsonObject {
    map k | k in props :: HintedField(k, props[k])
  }

  /** A hint rewrites only the two hint keys of a property; what is nested inside it is left alone. */
  lemma HintsOnlyTouchHintKeys(fieldName: string, field: Json, key: string)
    requires field.JObject? && key in field.fields && key != "ui:widget" && key != "ui:options"
    ensures HintedField(fieldName, field).JObject?
    ensures key in HintedField(fieldName, field).fields && HintedField(fieldName, field).fields[key] == field.fields[key]
  {
  }

  /** Hinting twice is hinting once. */
  lemma HintedFieldIdempotent(fieldName: string, field: Json)
    ensures HintedField(fieldName, HintedField(fieldName, field)) == HintedField(fieldName, field)
  {
    var h := HintedField(fieldName, field);
    if HasType(field, "string") && Contains(ToLower(fieldName), "body") {
      assert h.fields["type"] == JString("string");
      assert h.fields["ui:widget" := JString("textarea")]["ui:options" := TextareaHints] == h.fields;
    } else if HasType(field, "array") {
      assert h.fields["type"] == JString("array");
      assert h.fields["ui:options" := ArrayHints] == h.fields;
    }
  }

  /** `addUiHints` applied to an already hinted schema changes nothing. */
  lemma WithUiHintsIdempotent(schema: JsonObject)
    ensures WithUiHints(WithUiHints(schema)) == WithUiHints(schema)
  {
    var once := WithUiHints(schema);
    assert Truthy(Get(once, "ui:options"));
    var s := if !Truthy(Get(schema, "ui:options")) then schema["ui:options" := JObject(map[])] else schema;
    if "properties" in s && s["properties"].JObject? {
      var props := s["properties"].fields;
      var hinted := HintedProperties(props);
      forall k | k in hinted ensures HintedField(k, hinted[k]) == hinted[k] {
        HintedFieldIdempotent(k, props[k]);
      }
      assert HintedProperties(hinted) == hinted;
    }
  }

  /**
   * `addUiHints` as the converter runs it: makes sure `ui:options` is set,
   * then visits the top-level properties one at a time.
   */
  method AddUiHints(schema: JsonObject) returns (r: JsonObject)
    ensures r == WithUiHints(schema)
  {
    r := schema;
    if !Truthy(Get(r, "ui:options")) {
      r := r["ui:options" := JObject(map[])];
    }
    if "properties" in r && r["properties"].JObject? {
      var props := r["properties"].fields;
      var updated := props;
      var pending := props.Keys;
      while pending != {}
        invariant pending <= props.Keys && updated.Keys == props.Keys
        invariant forall k :: k in props && k !in pending ==> updated[k] == HintedField(k, props[k])
        invariant forall k :: k in pending ==> updated[k] == props[k]
        decreases pending
      {
        var k :| k in pending;
        updated := updated[k := HintedField(k, props[k])];
        pending := pending - {k};
      }
      assert updated == HintedProperties(props);
      r := r["properties" := JObject(updated)];
    }
  }

  // ---------------------------------------------------------------- converter

  /** The converted schema, with hints exactly when the `addUiHints` option is truthy. */
  function ConvertedSchema(addUiHints: Option<bool>, typeName: string): JsonObject {
    if addUiHints == Some(true) then WithUiHints(BaseSchema(typeName)) else BaseSchema(typeName)
  }

  /** `ProtobufToJsonSchemaConverter`: its options are fixed when it is built. */
  class Converter {
    const addUiHints: Option<bool>
    const includeComments: Option<bool>

    /** Both flags default to true; whatever the caller's options set wins. */
    constructor (options: ConversionOptions)
      ensures addUiHints == WithDefaultTrue(options.addUiHints)
      ensures includeComments == WithDefaultTrue(options.includeComments)
    {
      addUiHints := WithDefaultTrue(options.addUiHints);
      includeComments := WithDefaultTrue(options.includeComments);
    }

    /** `convertMessageSchema` for a message type name. */
    method ConvertMessageSchema(typeName: string) returns (schema: JsonObject)
      ensures schema == ConvertedSchema(addUiHints, typeName)
    {
      var title := ExtractMessageName(typeName);
      schema := Header(map[], title);
      if Contains(typeName, "ApplyMappingRequest") {
        HeaderSetProperties(map[], ApplyMappingProperties(), title);
        schema := schema["properties" := JObject(ApplyMappingProperties())];
      } else if Contains(typeName, "PipeDoc") {
        HeaderSetProperties(map[], PipeDocProperties(), title);
        schema := schema["properties" := JObject(PipeDocProperties())];
      } else {
        HeaderSetProperties(map[], DataProperties(), title);
        schema := schema["properties" := JObject(DataProperties())];
      }
      if addUiHints == Some(true) {
        schema := AddUiHints(schema);
      }
    }
  }

  // ---------------------------------------------------------------- properties of a converted schema

  /** Hints add `ui:options` and rewrite `properties`; every other key keeps its value. */
  lemma WithUiHintsKeeps(schema: JsonObject, key: string)
    requires key in schema && key != "ui:options" && key != "properties"
    ensures key in WithUiHints(schema) && WithUiHints(schema)[key] == schema[key]
  {
  }

  /** Hints keep the property names. */
  lemma WithUiHintsPropertyNames(schema: JsonObject)
    requires "properties" in schema && schema["properties"].JObject?
    ensures "properties" in WithUiHints(schema) && WithUiHints(schema)["properties"].JObject?
    ensures WithUiHints(schema)["properties"].fields.Keys == schema["properties"].fields.Keys
    ensures forall k :: k in schema["properties"].fields ==>
      WithUiHints(schema)["properties"].fields[k] == HintedField(k, schema["properties"].fields[k])
  {
  }

  /** Hints on a fresh header: empty `ui:options` and hinted properties. */
  lemma HintedHeader(properties: JsonObject, title: string)
    ensures WithUiHints(Header(properties, title))
      == Header(HintedProperties(properties), title)["ui:options" := JObject(map[])]
  {
  }

  /** A header, hinted or not, keeps its type, title and empty `required`, and has `ui:options` only when hinted. */
  lemma HeaderConverted(addUiHints: Option<bool>, properties: JsonObject, title: string)
    ensures var s := if addUiHints == Some(true) then WithUiHints(Header(properties, title)) else Header(properties, title);
      && Get(s, "type") == Some(JString("object"))
      && Get(s, "required") == Some(JArray([]))
      && Get(s, "title") == Some(JString(title))
      && ("ui:options" in s <==> addUiHints == Some(true))
      && ("ui:options" in s ==> s["ui:options"] == JObject(map[]))
  {
    HintedHeader(properties, title);
  }

  /** Every converted schema is an object titled with the short name that requires nothing. */
  lemma ConvertedSchemaHeader(addUiHints: Option<bool>, typeName: string)
    ensures var s := ConvertedSchema(addUiHints, typeName);
      && Get(s, "type") == Some(JString("object"))
      && Get(s, "required") == Some(JArray([]))
      && Get(s, "title") == Some(JString(ExtractMessageName(typeName)))
  {
    HeaderConverted(addUiHints, PropertiesFor(typeName), ExtractMessageName(typeName));
  }

  /** `ui:options` is present exactly when hints are on, and then it is empty. */
  lemma ConvertedSchemaOptions(addUiHints: Option<bool>, typeName: string)
    ensures var s := ConvertedSchema(addUiHints, typeName);
      ("ui:options" in s <==> addUiHints == Some(true))
      && ("ui:options" in s ==> s["ui:options"] == JObject(map[]))
  {
    HeaderConverted(addUiHints, PropertiesFor(typeName), ExtractMessageName(typeName));
  }

  /** The family is picked by name: a mapping request before a PipeDoc, anything else gets `data`. */
  lemma PropertiesByFamily(typeName: string)
    ensures Contains(typeName, "ApplyMappingRequest") ==> PropertiesFor(typeName).Keys == {"document", "rules"}
    ensures !Contains(typeName, "ApplyMappingRequest") && Contains(typeName, "PipeDoc") ==>
      PropertiesFor(typeName).Keys == {"docId", "title", "body", "originalMimeType", "lastProcessed", "metadata"}
    ensures !Contains(typeName, "ApplyMappingRequest") && !Contains(typeName, "PipeDoc") ==>
      PropertiesFor(typeName).Keys == {"data"}
  {
  }

  /** An array property gains the add/remove controls and keeps everything else. */
  lemma ArrayFieldHinted(fieldName: string, field: Json)
    requires HasType(field, "array")
    ensures HintedField(fieldName, field) == JObject(field.fields["ui:options" := ArrayHints])
  {
    assert field.fields["type"] != JString("string");
  }

  /** The converted properties are the family's properties, each hinted when hints are on. */
  lemma ConvertedProperties(addUiHints: Option<bool>, typeName: string)
    ensures var s := ConvertedSchema(addUiHints, typeName);
      "properties" in s && s["properties"] == JObject(
        if addUiHints == Some(true) then HintedProperties(PropertiesFor(typeName)) else PropertiesFor(typeName))
  {
    HeaderConvertedProperties(addUiHints, PropertiesFor(typeName), ExtractMessageName(typeName));
  }

  /** A header's properties, hinted when hints are on. */
  lemma HeaderConvertedProperties(addUiHints: Option<bool>, properties: JsonObject, title: string)
    ensures var s := if addUiHints == Some(true) then WithUiHints(Header(properties, title)) else Header(properties, title);
      "properties" in s && s["properties"] == JObject(
        if addUiHints == Some(true) then HintedProperties(properties) else properties)
  {
    HintedHeader(properties, title);
  }

  /** With hints on, a mapping request's `rules` array is addable and removable, and its nested items are untouched. */
  lemma MappingRulesHinted()
    ensures var props := HintedProperties(ApplyMappingProperties());
      && "rules" in props && props["rules"].JObject?
      && props["rules"].fields["ui:options"] == ArrayHints
      && "items" in props["rules"].fields
      && props["rules"].fields["items"] == ApplyMappingProperties()["rules"].fields["items"]
  {
    var rules := ApplyMappingProperties()["rules"];
    assert HasType(rules, "array");
    ArrayFieldHinted("rules", rules);
  }

  /** A string property whose name mentions `body` in any case becomes a five-row textarea. */
  lemma BodyFieldHinted(fieldName: string, field: Json)
    requires HasType(field, "string") && Contains(ToLower(fieldName), "body")
    ensures HintedField(fieldName, field)
      == JObject(field.fields["ui:widget" := JString("textarea")]["ui:options" := TextareaHints])
  {
  }

  lemma BodyMentionsBody()
    ensures Contains(ToLower("body"), "body")
  {
    var l := ToLower("body");
    assert l[0] == 'b' && l[1] == 'o' && l[2] == 'd' && l[3] == 'y';
    assert l == "body";
    assert OccursAt(l, "body", 0);
  }

  /** A PipeDoc's `body`, and the mapping document's, is the string field titled "Body". */
  lemma BodyFieldsAreText()
    ensures PipeDocProperties()["body"] == TextareaField("Body")
    ensures ApplyMappingProperties()["document"].fields["properties"].fields["body"] == TextareaField("Body")
  {
  }

  /** With hints on, that `body` field gets a five-row textarea. */
  lemma PipeDocBodyHinted()
    ensures HintedField("body", TextareaField("Body"))
      == JObject(map["type" := JString("string"), "title" := JString("Body"), "ui:widget" := JString("textarea"),
        "ui:options" := TextareaHints])
  {
    var body := TextareaField("Body");
    assert HasType(body, "string");
    BodyMentionsBody();
    BodyFieldHinted("body", body);
  }

  /** Hints stop at the top level: the mapping request's nested document, body and all, is left as it is. */
  lemma NestedDocumentUntouched()
    ensures HintedField("document", ApplyMappingProperties()["document"]) == ApplyMappingProperties()["document"]
  {
    var doc := ApplyMappingProperties()["document"];
    assert doc.fields["type"] == JString("object");
  }
}
