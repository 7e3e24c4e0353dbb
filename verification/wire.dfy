/**
 * The boundary with the messaging client library the agent is built on:
 * the JSON values carried in messages, the parsed inbound message, the
 * outbound message handed to the connector, message schemas, and the
 * connector itself, reduced to its send operation.
 */
module CthunClient {

  datatype Option<T> = None | Some(value: T)

  /** A JSON value (floating-point numbers are not modelled). */
  datatype Value =
    | JNull
    | JBool(b: bool)
    | JInt(i: int)
    | JString(s: string)
    | JArray(items: seq<Value>)
    | JObject(fields: map<string, Value>)

  /** A data container: a JSON object, field name to value. */
  type Data = map<string, Value>

  datatype ContentType = Json | Binary

  /** The schema names the client library defines for requests and responses. */
  datatype SchemaName = CthunRequestSchema | CthunResponseSchema

  datatype TypeConstraint =
    | ObjectType | ArrayType | StringType | IntType | BoolType | NullType | AnyType

  /** One field constraint of a schema: the field, its type, whether it must be present. */
  datatype Constraint = Constraint(field: string, kind: TypeConstraint, required: bool)

  datatype Schema = Schema(name: SchemaName, contentType: ContentType, constraints: seq<Constraint>)

  predicate HasType(v: Value, t: TypeConstraint)
  {
    match t
    case ObjectType => v.JObject?
    case ArrayType => v.JArray?
    case StringType => v.JString?
    case IntType => v.JInt?
    case BoolType => v.JBool?
    case NullType => v.JNull?
    case AnyType => true
  }

  /**
   * What a schema's constraint list asks of a data container: every required
   * field is present, and every constrained field that is present has its type.
   */
  predicate Admits(schema: Schema, data: Data)
  {
    forall i :: 0 <= i < |schema.constraints| ==>
      var c := schema.constraints[i];
      (c.required ==> c.field in data) && (c.field in data ==> HasType(data[c.field], c.kind))
  }

  /**
   * An inbound message after the client library has parsed and validated it:
   * envelope identity, whether a data chunk is present and its content type,
   * the `module` and `action` strings (`moduleName`, `actionName`) of the data, and the debug chunks.
   */
  datatype ParsedChunks = ParsedChunks(
    id: string,
    sender: string,
    hasData: bool,
    dataType: ContentType,
    moduleName: string,
    actionName: string,
    debug: seq<string>)

  /** One call of the connector's send: targets, schema, timeout in seconds, data, debug entries. */
  datatype Outgoing = Outgoing(
    targets: seq<string>,
    schema: SchemaName,
    timeout: int,
    data: Data,
    debug: seq<Data>)

  /**
   * The connector, seen only through its send operation. Whether a send
   * throws a connection error is outside the agent's control, so it is
   * chosen arbitrarily on every call.
   */
  class Connector {
    /** Every send attempt, in order. */
    var sent: seq<Outgoing>
    /** The attempts that did not throw, in order. */
    var delivered: seq<Outgoing>

    constructor ()
      ensures sent == [] && delivered == []
    {
      sent := [];
      delivered := [];
    }

    method Send(m: Outgoing) returns (ok: bool)
      modifies this
      ensures sent == old(sent) + [m]
      ensures delivered == if ok then old(delivered) + [m] else old(delivered)
    {
      ok := *;
      sent := sent + [m];
      if ok {
        delivered := delivered + [m];
      }
    }
  }
}
