/**
 * The JSON documents the client exchanges with the chat API.
 *
 * A document is a value; the one object the source changes in place (the
 * caller's request object) is an `ObjectNode` whose property map the
 * methods reassign. Numbers are integers only: floating-point parameters
 * such as a sampling temperature are not part of this model.
 */
module Json {

  datatype Value =
    | Null
    | Bool(b: bool)
    | Number(n: int)
    | Str(s: string)
    | Arr(items: seq<Value>)
    | Obj(props: map<string, Value>)

  /** The properties of a JSON object, keyed by name. */
  type JsonObject = map<string, Value>

  /** Looking a name up in an object: a missing property reads as null. */
  function Member(props: JsonObject, name: string): Value
  {
    if name in props then props[name] else Null
  }

  /** A JSON object that callers share by reference and that can grow by `Add`. */
  class ObjectNode {
    var properties: JsonObject

    constructor (properties: JsonObject)
      ensures this.properties == properties
    {
      this.properties := properties;
    }

    /**
     * Adds a property. Adding a name that is already present is refused
     * (the JSON library throws) and leaves the object as it was.
     */
    method Add(name: string, value: Value) returns (added: bool)
      modifies this
      ensures added <==> name !in old(properties)
      ensures added ==> properties == old(properties)[name := value]
      ensures !added ==> properties == old(properties)
    {
      added := name !in properties;
      if added {
        properties := properties[name := value];
      }
    }
  }
}
