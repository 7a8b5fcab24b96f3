// The records of an OpenAPI 3.1 document the generator fills in
// (pkg/gen/openapi/types.go): inline schemas only. A Go pointer that may be
// nil is an Option; a slice whose absence and emptiness print alike is a seq.

module OpenApiTypes {
  import opened Results

  /** A schema: recursive through its properties and its items. */
  datatype Schema = Schema(
    schemaType: string,
    properties: Option<map<string, Schema>>,
    items: Option<Schema>,
    required: seq<string>,
    format: string)

  /** A schema that gives a type and nothing else. */
  function TypeOnly(t: string): (s: Schema)
    ensures s.schemaType == t && s.properties.None? && s.items.None? && s.required == []
  {
    Schema(t, None, None, [], "")
  }

  datatype MediaType = MediaType(schema: Schema)

  datatype Response = Response(description: string, content: map<string, MediaType>)

  datatype RequestBody = RequestBody(required: bool, content: map<string, MediaType>)

  /** A parameter; `location` is the `in` field: "path" or "query" here. */
  datatype Parameter = Parameter(name: string, location: string, required: bool, schema: Schema, description: string)

  datatype Operation = Operation(
    summary: string,
    operationId: string,
    parameters: seq<Parameter>,
    requestBody: Option<RequestBody>,
    responses: map<string, Response>)

  /** The five operation slots of a Path Item. */
  datatype PathItem = PathItem(
    get: Option<Operation>,
    post: Option<Operation>,
    put: Option<Operation>,
    patch: Option<Operation>,
    delete: Option<Operation>)

  /** The zero PathItem a Go map read gives for a missing key. */
  const EmptyPathItem: PathItem := PathItem(None, None, None, None, None)

  datatype Info = Info(title: string, version: string)

  datatype Server = Server(url: string, description: string)

  datatype Components = Components(schemas: map<string, Schema>)

  /** The document: version, info, servers, the path table and components. */
  datatype OpenApi = OpenApi(
    openapi: string,
    info: Info,
    servers: seq<Server>,
    paths: map<string, PathItem>,
    components: Option<Components>)
}
