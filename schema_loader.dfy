/**
 * The forms package's schema loader: a registry of generated message types,
 * each converted to a JSON Schema on request, with a basic schema for names
 * nobody registered.
 */
module SchemaLoader {
  import opened Wrappers
  import opened Strings
  import opened SchemaConverter

  /** A generated message type, known here by its fully qualified type name. */
  datatype MessageType = MessageType(typeName: string)

  /** `createBasicSchema`: the schema served for a name that is not registered. */
  function CreateBasicSchema(messageType: string): JsonObject {
    map[
      "type" := JString("object"),
      "title" := JString(OrElse(LastSegment(messageType, '.'), "Message")),
      "description" := JString("Schema for " + messageType + " (basic fallback)"),
      "properties" := JObject(DataProperties())]
  }

  /**
   * The basic schema is titled by the converter's naming rule, names the type
   * in its description, carries only the `data` property, and, unlike a
   * converted schema, has no `required` list and no UI hints.
   */
  lemma BasicSchemaShape(messageType: string)
    ensures var s := CreateBasicSchema(messageType);
      && s.Keys == {"type", "title", "description", "properties"}
      && s["type"] == JString("object")
      && s["title"] == JString(ExtractMessageName(messageType))
      && s["properties"] == JObject(DataProperties())
      && s["description"].JString? && Contains(s["description"].s, messageType)
  {
    ContainsMiddle("Schema for ", messageType, " (basic fallback)");
  }

  /** `ProtobufSchemaLoader`: the registry, in the order names were first registered. */
  class SchemaLoader {
    const converter: Converter
    var messageRegistry: map<string, MessageType>
    /** The registry's keys in insertion order, as a JavaScript `Map` iterates them. */
    var order: seq<string>

    ghost predicate Valid()
      reads this
    {
      (forall i :: 0 <= i < |order| ==> order[i] in messageRegistry)
      && (forall name :: name in messageRegistry ==> name in order)
      && (forall i, j :: 0 <= i < j < |order| ==> order[i] != order[j])
    }

    /** A new loader converts with the given options and has nothing registered. */
    constructor (options: ConversionOptions)
      ensures Valid()
      ensures messageRegistry == map[] && order == []
      ensures converter.addUiHints == WithDefaultTrue(options.addUiHints)
      ensures converter.includeComments == WithDefaultTrue(options.includeComments)
    {
      converter := new Converter(options);
      messageRegistry := map[];
      order := [];
    }

    /** `registerMessage`: adds the name, or replaces what it named, keeping its place in the order. */
    method RegisterMessage(name: string, schema: MessageType)
      requires Valid()
      modifies this
      ensures Valid()
      ensures messageRegistry == old(messageRegistry)[name := schema]
      ensures order == if name in old(messageRegistry) then old(order) else old(order) + [name]
    {
      if name !in messageRegistry {
        order := order + [name];
      }
      messageRegistry := messageRegistry[name := schema];
    }

    /** `registerMessageSchema`: the same as `registerMessage`. */
    method RegisterMessageSchema(name: string, schema: MessageType)
      requires Valid()
      modifies this
      ensures Valid()
      ensures messageRegistry == old(messageRegistry)[name := schema]
      ensures order == if name in old(messageRegistry) then old(order) else old(order) + [name]
    {
      RegisterMessage(name, schema);
    }

    /** `loadFromGenerated`: kept for compatibility; it changes nothing. */
    method LoadFromGenerated() {
    }

    /** `loadProtoFile`: deprecated; only warns, so it changes nothing either. */
    method LoadProtoFile(protoPath: string) {
      LoadFromGenerated();
    }

    /** `loadProtoString`: deprecated, like `loadProtoFile`. */
    method LoadProtoString(protoContent: string) {
      LoadFromGenerated();
    }

    /** The schema `getMessageSchema` serves: the converted one when registered, else the basic one. */
    ghost function SchemaFor(messageType: string): JsonObject
      reads this
    {
      if messageType in messageRegistry then ConvertedSchema(converter.addUiHints, messageRegistry[messageType].typeName)
      else CreateBasicSchema(messageType)
    }

    /** `getMessageSchema`: an unknown name gets the basic schema rather than an error. */
    method GetMessageSchema(messageType: string) returns (schema: JsonObject)
      ensures schema == SchemaFor(messageType)
      ensures messageType !in messageRegistry ==> schema == CreateBasicSchema(messageType)
    {
      if messageType !in messageRegistry {
        return CreateBasicSchema(messageType);
      }
      schema := converter.ConvertMessageSchema(messageRegistry[messageType].typeName);
    }

    /** `getJsonSchema`: the same schema as `getMessageSchema`. */
    method GetJsonSchema(messageType: string) returns (schema: JsonObject)
      ensures schema == SchemaFor(messageType)
    {
      schema := GetMessageSchema(messageType);
    }

    /** `getAvailableMessageTypes`: each registered name once, in registration order. */
    function GetAvailableMessageTypes(): (names: seq<string>)
      requires Valid()
      reads this
      ensures forall name :: name in names <==> name in messageRegistry
      ensures forall i, j :: 0 <= i < j < |names| ==> names[i] != names[j]
      ensures names == order
    {
      order
    }
  }

  /** Registering a name makes it available and served by conversion, whatever was there before. */
  method RegisterThenServe(loader: SchemaLoader, name: string, schema: MessageType) returns (served: JsonObject)
    requires loader.Valid()
    modifies loader
    ensures loader.Valid()
    ensures name in loader.GetAvailableMessageTypes()
    ensures served == ConvertedSchema(loader.converter.addUiHints, schema.typeName)
  {
    loader.RegisterMessage(name, schema);
    served := loader.GetMessageSchema(name);
  }
}
