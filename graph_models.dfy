/**
 * The wire envelopes of the graphql-ws protocol (subhandler/graphModels.go) and the conversion of a generic
 * envelope into a typed subscription request.
 *
 * encoding/json is not modelled: JsonCodec carries its marshal and unmarshal operations as partial functions
 * (a Result whose Err is the error text), and everything here is stated for every such codec.
 */
module GraphModels {
  import opened Wrappers

  type Bytes = seq<bv8>

  /** A JSON value as encoding/json decodes it into an `interface{}` (JNull is Go's nil). */
  datatype Json =
    | JNull
    | JBool(b: bool)
    | JNumber(n: int)
    | JString(s: string)
    | JArray(items: seq<Json>)
    | JObject(fields: map<string, Json>)

  /** What graphql.Do returns: the data and the field errors. */
  datatype GraphQLResult = GraphQLResult(data: Json, errors: seq<string>)

  /**
   * The `interface{}` payload of a graphQLWSMessage: a decoded JSON value (a received message, the error text of
   * a decode failure, nil) or the graphql.Result of an execution (an outgoing "data" message).
   */
  datatype Payload = Value(v: Json) | ExecResult(result: GraphQLResult)

  /** graphQLPayload: the typed payload of a "start" message. */
  datatype GraphQLPayload = GraphQLPayload(
    variables: map<string, Json>,
    operationName: string,
    extensions: Json,
    query: string)

  /** graphQLWSRequest: an envelope whose payload has been converted to a GraphQLPayload. */
  datatype GraphQLWSRequest = GraphQLWSRequest(id: string, msgType: string, payload: GraphQLPayload)

  /** graphQLWSMessage: the generic envelope `{id, type, payload}`. */
  datatype GraphQLWSMessage = GraphQLWSMessage(id: string, msgType: string, payload: Payload)

  /** The encoding/json operations the core uses, each partial: Err carries the error text. */
  datatype JsonCodec = JsonCodec(
    marshalPayload: Payload -> Result<Bytes, string>,
    unmarshalPayload: Bytes -> Result<GraphQLPayload, string>,
    marshalMessage: GraphQLWSMessage -> Result<Bytes, string>,
    unmarshalMessage: Bytes -> Result<GraphQLWSMessage, string>)

  /**
   * ToGraphQLRequest: re-marshal the generic payload and unmarshal it into a GraphQLPayload. The Id and the Type
   * are copied from the message; the Type is not checked. A failure of either step is returned as the error.
   */
  function ToGraphQLRequest(codec: JsonCodec, m: GraphQLWSMessage): (r: Result<GraphQLWSRequest, string>)
    ensures r.Ok? ==> r.value.id == m.id && r.value.msgType == m.msgType
    ensures codec.marshalPayload(m.payload).Err? ==> r == Err(codec.marshalPayload(m.payload).error)
    ensures codec.marshalPayload(m.payload).Ok? ==>
              var decoded := codec.unmarshalPayload(codec.marshalPayload(m.payload).value);
              (decoded.Err? ==> r == Err(decoded.error)) &&
              (decoded.Ok? ==> r.Ok? && r.value.payload == decoded.value)
  {
    match codec.marshalPayload(m.payload)
    case Err(e) => Err(e)
    case Ok(d) =>
      match codec.unmarshalPayload(d)
      case Err(e) => Err(e)
      case Ok(p) => Ok(GraphQLWSRequest(m.id, m.msgType, p))
  }

  /**
   * The Type is never validated: whether a message converts, and to which payload, does not depend on its Type.
   */
  lemma TypeNotValidated(codec: JsonCodec, m: GraphQLWSMessage, t: string)
    ensures var r := ToGraphQLRequest(codec, m);
            var r' := ToGraphQLRequest(codec, m.(msgType := t));
            r.Ok? == r'.Ok? && (r.Ok? ==> r'.value == r.value.(msgType := t)) && (r.Err? ==> r' == r)
  {
  }

  /** The conversion reads the payload only through its encoding: equal encodings give equal payloads. */
  lemma DependsOnlyOnEncoding(codec: JsonCodec, m1: GraphQLWSMessage, m2: GraphQLWSMessage)
    requires m1.id == m2.id && m1.msgType == m2.msgType
    requires codec.marshalPayload(m1.payload) == codec.marshalPayload(m2.payload)
    ensures ToGraphQLRequest(codec, m1) == ToGraphQLRequest(codec, m2)
  {
  }
}
