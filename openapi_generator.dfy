// The OpenAPI generator (pkg/gen/openapi/generator.go): a walk of the
// extracted tree that writes one Path Item per path key into a shared
// table, each endpoint an Operation with its parameters, request body and
// response schemas.

module OpenApiGenerator {
  import opened Results
  import opened Text
  import opened OpenApiTypes
  import opened TypeDesc
  import Repr
  import Server

  // ---------------------------------------------------------------------
  // Path keys

  /** buildPathString: the key text of one segment; a root or unknown segment is "/". */
  function BuildPathString(seg: Repr.PathString): (r: string)
    ensures r == "/" || |r| >= 2
    ensures |r| >= 1 && r[0] == '/'
  {
    if seg.pathType == Repr.PathROOT then "/"
    else if seg.pathType == Repr.PathSTATIC then "/" + seg.name
    else if seg.pathType == Repr.PathPARAM then "/" + "{" + seg.name + "}"
    else "/"
  }

  /** The key of a node from its parent's key and its own segment text. */
  function JoinPath(parent: string, pathStr: string): (r: string)
    ensures (parent == "" || parent[0] == '/') && |pathStr| > 0 && pathStr[0] == '/' ==> |r| > 0 && r[0] == '/'
  {
    if pathStr != "/" then
      if parent == "/" then pathStr else parent + pathStr
    else if parent == "" then "/"
    else parent
  }

  /** The segment texts of a chain, root and empty-named segments contributing nothing. */
  function ChainText(chain: seq<Repr.PathString>): (r: string)
    ensures r == "" || |r| >= 2
  {
    if |chain| == 0 then ""
    else
      var last := BuildPathString(chain[|chain| - 1]);
      ChainText(chain[..|chain| - 1]) + (if last == "/" then "" else last)
  }

  /** The key of a chain of segments: "/" when nothing but roots. */
  function ChainKey(chain: seq<Repr.PathString>): string {
    if ChainText(chain) == "" then "/" else ChainText(chain)
  }

  /**
   * Joining a node's segment onto its parent's key gives the key of the
   * longer chain, so every node is keyed by the braced text of its chain.
   */
  lemma JoinPathChain(chain: seq<Repr.PathString>, seg: Repr.PathString)
    ensures JoinPath(ChainKey(chain), BuildPathString(seg)) == ChainKey(chain + [seg])
  {
    assert (chain + [seg])[..|chain|] == chain;
  }

  /** The walk starts with the parent key "", which acts as the root key "/". */
  lemma TopLevelKey(seg: Repr.PathString)
    ensures JoinPath("", BuildPathString(seg)) == ChainKey([seg])
  {
    JoinPathChain([], seg);
    assert [] + [seg] == [seg];
  }

  /** The route root, "users", "id" (a parameter) are keyed "/", "/users", "/users/{id}". */
  lemma UsersByIdKey()
    ensures var k0 := JoinPath("", BuildPathString(Repr.PathString("", Repr.PathROOT)));
            var k1 := JoinPath(k0, BuildPathString(Repr.PathString("users", Repr.PathSTATIC)));
            k0 == "/" && k1 == "/users" &&
            JoinPath(k1, BuildPathString(Repr.PathString("id", Repr.PathPARAM))) == "/users/{id}"
  {
    assert BuildPathString(Repr.PathString("", Repr.PathROOT)) == "/";
    assert BuildPathString(Repr.PathString("users", Repr.PathSTATIC)) == "/users";
    assert BuildPathString(Repr.PathString("id", Repr.PathPARAM)) == "/{id}";
    assert "/users" + "/{id}" == "/users/{id}";
  }

  // ---------------------------------------------------------------------
  // Schemas

  /** isRequired */
  function IsRequired(validation: seq<string>): (b: bool)
    ensures b <==> exists i :: 0 <= i < |validation| && validation[i] == "required"
  {
    if |validation| == 0 then false
    else validation[0] == "required" || IsRequired(validation[1..])
  }

  /** isRequired itself: the range loop that returns at the first "required". */
  method ScanRequired(validation: seq<string>) returns (b: bool)
    ensures b == IsRequired(validation)
  {
    for i := 0 to |validation|
      invariant forall j :: 0 <= j < i ==> validation[j] != "required"
    {
      if validation[i] == "required" {
        return true;
      }
    }
    return false;
  }

  /** The kinds convertFieldToSchema writes as "integer". */
  const IntegerKinds: seq<Kind> := [Int, Int8, Int16, Int32, Int64, Uint, Uint8, Uint16, Uint32, Uint64]

  /** The integer kinds are exactly the extractor's signed and unsigned families. */
  lemma IntegerKindsAgree()
    ensures forall k :: k in IntegerKinds <==> k in IntKinds || k in UintKinds
  {
  }

  /** The property name of a field: its wire name when it has a serialization. */
  function PropertyName(f: Repr.StructField): string {
    if f.serialization.Some? then f.serialization.value.name else f.name
  }

  /** convertFieldToSchema: the schema of a field by its kind. */
  function FieldSchema(f: Repr.StructField): (s: Schema)
    ensures s.schemaType == "array" <==> f.kind == Array || f.kind == Slice
    ensures s.items.Some? <==> s.schemaType == "array"
    ensures f.kind == Struct ==> s.schemaType == "object" && s.properties.Some?
    decreases f, 1
  {
    if f.kind == String then TypeOnly("string")
    else if f.kind in IntegerKinds then TypeOnly("integer")
    else if f.kind == Float32 || f.kind == Float64 then TypeOnly("number")
    else if f.kind == Bool then TypeOnly("boolean")
    else if f.kind == Array || f.kind == Slice then
      Schema("array", None,
             Some(if |f.subFields| > 0 then FieldSchema(f.subFields[0]) else TypeOnly("string")), [], "")
    else if f.kind == Struct then
      Schema("object", Some(PropertiesOf(f.subFields)), None, RequiredOf(f.subFields), "")
    else if f.kind == Map then
      Schema("object", if |f.subFields| > 1 then Some(map[]) else None, None, [], "")
    else TypeOnly("string")
  }

  /** convertFieldToSchema itself: the kind switch, the struct branch a loop over the sub-fields. */
  method ConvertFieldToSchema(f: Repr.StructField) returns (schema: Schema)
    ensures schema == FieldSchema(f)
    decreases f
  {
    if f.kind == String {
      schema := TypeOnly("string");
    } else if f.kind in IntegerKinds {
      schema := TypeOnly("integer");
    } else if f.kind == Float32 || f.kind == Float64 {
      schema := TypeOnly("number");
    } else if f.kind == Bool {
      schema := TypeOnly("boolean");
    } else if f.kind == Array || f.kind == Slice {
      var items := TypeOnly("string");
      if |f.subFields| > 0 {
        items := ConvertFieldToSchema(f.subFields[0]);
      }
      schema := Schema("array", None, Some(items), [], "");
    } else if f.kind == Struct {
      var subFields := f.subFields;
      var properties := map[];
      var required := [];
      for i := 0 to |subFields|
        invariant properties == PropertiesOf(subFields[..i])
        invariant required == RequiredOf(subFields[..i])
      {
        var sub := subFields[i];
        assert subFields[..i + 1][..i] == subFields[..i];
        var subFieldName := sub.name;
        if sub.serialization.Some? {
          subFieldName := sub.serialization.value.name;
        }
        var subSchema := ConvertFieldToSchema(sub);
        properties := properties[subFieldName := subSchema];
        var isRequired := ScanRequired(sub.validation);
        if isRequired {
          required := required + [subFieldName];
        }
      }
      assert subFields[..|subFields|] == subFields;
      schema := Schema("object", Some(properties), None, required, "");
    } else if f.kind == Map {
      schema := Schema("object", if |f.subFields| > 1 then Some(map[]) else None, None, [], "");
    } else {
      schema := TypeOnly("string");
    }
  }

  /** The properties of a list of fields: each under its property name, a later field replacing an earlier one. */
  function PropertiesOf(fs: seq<Repr.StructField>): map<string, Schema>
    decreases fs, 0
  {
    if |fs| == 0 then map[]
    else
      var last := fs[|fs| - 1];
      PropertiesOf(fs[..|fs| - 1])[PropertyName(last) := FieldSchema(last)]
  }

  /** The names of the required fields, in field order. */
  function RequiredOf(fs: seq<Repr.StructField>): seq<string> {
    if |fs| == 0 then []
    else
      var last := fs[|fs| - 1];
      RequiredOf(fs[..|fs| - 1]) + (if IsRequired(last.validation) then [PropertyName(last)] else [])
  }

  /** A property exists exactly for each field's name, and holds the schema of the last field of that name. */
  lemma {:induction false} PropertiesOfMeaning(fs: seq<Repr.StructField>)
    ensures forall k :: k in PropertiesOf(fs) <==> exists f :: f in fs && PropertyName(f) == k
    ensures |fs| > 0 ==> PropertiesOf(fs)[PropertyName(fs[|fs| - 1])] == FieldSchema(fs[|fs| - 1])
  {
    if |fs| > 0 {
      PropertiesOfMeaning(fs[..|fs| - 1]);
      assert fs == fs[..|fs| - 1] + [fs[|fs| - 1]];
    }
  }

  /** The required list keeps field order: it distributes over concatenation. */
  lemma {:induction false} RequiredOfAppend(a: seq<Repr.StructField>, b: seq<Repr.StructField>)
    ensures RequiredOf(a + b) == RequiredOf(a) + RequiredOf(b)
    decreases |b|
  {
    if |b| > 0 {
      assert (a + b)[..|a + b| - 1] == a + b[..|b| - 1];
      RequiredOfAppend(a, b[..|b| - 1]);
    } else {
      assert a + b == a;
    }
  }

  /**
   * Fields the extractor produced have no float kind, so the "number" branch
   * is never taken: each gets a non-empty type from the other branches.
   */
  lemma ExtractedFieldSchemas(f: Repr.StructField)
    requires Server.WellKinded(f)
    ensures FieldSchema(f).schemaType in ["string", "integer", "boolean", "array", "object"]
    ensures f.kind in IntKinds || f.kind in UintKinds ==> FieldSchema(f).schemaType == "integer"
    ensures f.kind == Array ==> FieldSchema(f).items == Some(FieldSchema(f.subFields[0]))
    ensures f.kind == Map ==> FieldSchema(f).properties == Some(map[])
  {
    if f.kind == Array {
      ArraySchema(f);
    } else if f.kind == Map {
      MapSchema(f);
    } else if f.kind == Struct {
      StructSchema(f);
    } else {
      PrimitiveSchema(f);
    }
  }

  /** The schema type of a primitive kind: integer for the integer families, otherwise string or boolean. */
  lemma PrimitiveSchema(f: Repr.StructField)
    requires f.kind in PrimitiveKinds
    ensures FieldSchema(f).schemaType in ["string", "integer", "boolean"]
    ensures f.kind in IntKinds || f.kind in UintKinds ==> FieldSchema(f).schemaType == "integer"
  {
    IntegerKindsAgree();
    assert f.kind in IntKinds || f.kind in UintKinds || f.kind == String || f.kind == Bool;
  }

  /** An array of one element type is an array schema whose items are the element's. */
  lemma ArraySchema(f: Repr.StructField)
    requires f.kind == Array && |f.subFields| == 1
    ensures FieldSchema(f) == Schema("array", None, Some(FieldSchema(f.subFields[0])), [], "")
    ensures f.kind !in IntKinds && f.kind !in UintKinds
  {
  }

  /** A map with its key and value descriptions is an object with an empty properties container. */
  lemma MapSchema(f: Repr.StructField)
    requires f.kind == Map && |f.subFields| == 2
    ensures FieldSchema(f) == Schema("object", Some(map[]), None, [], "")
    ensures f.kind !in IntKinds && f.kind !in UintKinds
  {
  }

  /** A struct is an object. */
  lemma StructSchema(f: Repr.StructField)
    requires f.kind == Struct
    ensures FieldSchema(f).schemaType == "object"
    ensures f.kind !in IntKinds && f.kind !in UintKinds
  {
  }

  // ---------------------------------------------------------------------
  // convertDataToSchema

  /** PATH and QUERY fields travel as parameters, not in the body. */
  predicate IsParamField(f: Repr.StructField) {
    f.serialization.Some? &&
    (f.serialization.value.serType == Repr.SerializationPATH || f.serialization.value.serType == Repr.SerializationQUERY)
  }

  function BodyFields(fs: seq<Repr.StructField>): (r: seq<Repr.StructField>)
    ensures forall f :: f in r <==> f in fs && !IsParamField(f)
  {
    if |fs| == 0 then []
    else
      var last := fs[|fs| - 1];
      assert fs == fs[..|fs| - 1] + [last];
      BodyFields(fs[..|fs| - 1]) + (if IsParamField(last) then [] else [last])
  }

  /** The object schema of a record: its non-parameter fields as properties. */
  function DataSchema(data: Repr.Data): Schema {
    Schema("object", Some(PropertiesOf(BodyFields(data.fields))), None, RequiredOf(BodyFields(data.fields)), "")
  }

  /** One more field extends the properties and the required list, unless it is a parameter. */
  lemma BodyStep(fs: seq<Repr.StructField>, f: Repr.StructField)
    ensures !IsParamField(f) ==>
              PropertiesOf(BodyFields(fs + [f])) == PropertiesOf(BodyFields(fs))[PropertyName(f) := FieldSchema(f)] &&
              RequiredOf(BodyFields(fs + [f])) == RequiredOf(BodyFields(fs)) + (if IsRequired(f.validation) then [PropertyName(f)] else [])
    ensures IsParamField(f) ==> BodyFields(fs + [f]) == BodyFields(fs)
  {
    assert (fs + [f])[..|fs|] == fs;
    var body := BodyFields(fs);
    assert (body + [f])[..|body|] == body;
  }

  /** convertDataToSchema: the loop that fills the properties and the required list. */
  method ConvertDataToSchema(data: Repr.Data) returns (schema: Schema)
    ensures schema == DataSchema(data)
  {
    var properties := map[];
    var required := [];
    var fields := data.fields;
    for i := 0 to |fields|
      invariant properties == PropertiesOf(BodyFields(fields[..i]))
      invariant required == RequiredOf(BodyFields(fields[..i]))
    {
      var f := fields[i];
      assert fields[..i + 1] == fields[..i] + [f];
      BodyStep(fields[..i], f);
      if IsParamField(f) {
        continue;
      }
      var fieldName := f.name;
      if f.serialization.Some? {
        fieldName := f.serialization.value.name;
      }
      var fieldSchema := ConvertFieldToSchema(f);
      properties := properties[fieldName := fieldSchema];
      var isRequired := ScanRequired(f.validation);
      if isRequired {
        required := required + [fieldName];
      }
    }
    assert fields[..|fields|] == fields;
    schema := Schema("object", Some(properties), None, required, "");
  }

  // ---------------------------------------------------------------------
  // convertEndpoint

  /** The parameter of one field: a PATH field always required, a QUERY field when validated so. */
  function ParameterOf(f: Repr.StructField): seq<Parameter> {
    if f.serialization.None? then []
    else if f.serialization.value.serType == Repr.SerializationPATH then
      [Parameter(f.serialization.value.name, "path", true, FieldSchema(f), "")]
    else if f.serialization.value.serType == Repr.SerializationQUERY then
      [Parameter(f.serialization.value.name, "query", IsRequired(f.validation), FieldSchema(f), "")]
    else []
  }

  function ParametersOf(fs: seq<Repr.StructField>): seq<Parameter> {
    if |fs| == 0 then [] else ParametersOf(fs[..|fs| - 1]) + ParameterOf(fs[|fs| - 1])
  }

  /** Parameters follow field order. */
  lemma {:induction false} ParametersOfAppend(a: seq<Repr.StructField>, b: seq<Repr.StructField>)
    ensures ParametersOf(a + b) == ParametersOf(a) + ParametersOf(b)
    decreases |b|
  {
    if |b| > 0 {
      assert (a + b)[..|a + b| - 1] == a + b[..|b| - 1];
      ParametersOfAppend(a, b[..|b| - 1]);
    } else {
      assert a + b == a;
    }
  }

  /**
   * Every parameter comes from a PATH or QUERY field of that wire name; a
   * path parameter is always required, a query parameter exactly when its
   * field carries the "required" rule.
   */
  lemma {:induction false} ParametersMeaning(fs: seq<Repr.StructField>)
    ensures forall p :: p in ParametersOf(fs) ==>
              exists f :: f in fs && IsParamField(f) && p.name == f.serialization.value.name &&
                p.schema == FieldSchema(f) &&
                (f.serialization.value.serType == Repr.SerializationPATH ==> p.location == "path" && p.required) &&
                (f.serialization.value.serType == Repr.SerializationQUERY ==> p.location == "query" && p.required == IsRequired(f.validation))
    ensures forall p :: p in ParametersOf(fs) && p.location == "path" ==> p.required
    ensures |ParametersOf(fs)| <= |fs|
  {
    if |fs| > 0 {
      ParametersMeaning(fs[..|fs| - 1]);
      assert fs == fs[..|fs| - 1] + [fs[|fs| - 1]];
    }
  }

  /** The application/json content of a schema. */
  function JsonContent(s: Schema): map<string, MediaType> {
    map["application/json" := MediaType(s)]
  }

  /** The request body: only for a method other than GET whose record has body properties. */
  function RequestBodyOf(e: Repr.Endpoint): Option<RequestBody> {
    var bodySchema := DataSchema(e.body);
    if e.httpMethod != "GET" && |bodySchema.properties.value| > 0 then
      Some(RequestBody(true, JsonContent(bodySchema)))
    else None
  }

  /** The Operation of one endpoint. */
  function EndpointOperation(e: Repr.Endpoint): Operation {
    Operation(e.handler.name, e.handler.name, ParametersOf(e.body.fields), RequestBodyOf(e),
              map["200" := Response("Successful response", JsonContent(DataSchema(e.response)))])
  }

  /**
   * A request body is present exactly when the method is not GET and some
   * field of the body is not a PATH or QUERY parameter; the only response
   * is "200".
   */
  lemma EndpointOperationShape(e: Repr.Endpoint)
    ensures EndpointOperation(e).requestBody.Some? <==>
              e.httpMethod != "GET" && exists f :: f in e.body.fields && !IsParamField(f)
    ensures EndpointOperation(e).responses.Keys == {"200"}
    ensures EndpointOperation(e).responses["200"].description == "Successful response"
    ensures EndpointOperation(e).summary == e.handler.name && EndpointOperation(e).operationId == e.handler.name
  {
    var body := BodyFields(e.body.fields);
    PropertiesOfMeaning(body);
    var props := PropertiesOf(body);
    if exists f :: f in e.body.fields && !IsParamField(f) {
      var f :| f in e.body.fields && !IsParamField(f);
      assert PropertyName(f) in props;
      assert |props| > 0;
    } else {
      assert props == map[];
    }
  }

  /** convertEndpoint: the parameter loop, then the request body and the response. */
  method ConvertEndpoint(e: Repr.Endpoint) returns (op: Operation)
    ensures op == EndpointOperation(e)
  {
    var params := [];
    var fields := e.body.fields;
    for i := 0 to |fields|
      invariant params == ParametersOf(fields[..i])
    {
      var f := fields[i];
      assert fields[..i + 1][..i] == fields[..i];
      if f.serialization.Some? {
        if f.serialization.value.serType == Repr.SerializationPATH {
          var fieldSchema := ConvertFieldToSchema(f);
          params := params + [Parameter(f.serialization.value.name, "path", true, fieldSchema, "")];
        } else if f.serialization.value.serType == Repr.SerializationQUERY {
          var isRequired := ScanRequired(f.validation);
          var fieldSchema := ConvertFieldToSchema(f);
          params := params + [Parameter(f.serialization.value.name, "query", isRequired, fieldSchema, "")];
        }
      }
    }
    assert fields[..|fields|] == fields;
    var requestBody := None;
    if e.httpMethod != "GET" {
      var bodySchema := ConvertDataToSchema(e.body);
      if |bodySchema.properties.value| > 0 {
        requestBody := Some(RequestBody(true, JsonContent(bodySchema)));
      }
    }
    var responseSchema := ConvertDataToSchema(e.response);
    op := Operation(e.handler.name, e.handler.name, params, requestBody,
                    map["200" := Response("Successful response", JsonContent(responseSchema))]);
  }

  // ---------------------------------------------------------------------
  // setOperation

  const OperationMethods: seq<string> := ["GET", "POST", "PUT", "PATCH", "DELETE"]

  /** The slot of a Path Item a method names; None for any other method. */
  function Slot(item: PathItem, m: string): Option<Operation> {
    if m == "GET" then item.get
    else if m == "POST" then item.post
    else if m == "PUT" then item.put
    else if m == "PATCH" then item.patch
    else if m == "DELETE" then item.delete
    else None
  }

  /** setOperation: the slot named by the upper-cased method is set. */
  function SetOperation(item: PathItem, httpMethod: string, op: Operation): (r: PathItem)
    ensures ToUpper(httpMethod) in OperationMethods ==> Slot(r, ToUpper(httpMethod)) == Some(op)
    ensures r == item || ToUpper(httpMethod) in OperationMethods
  {
    var m := ToUpper(httpMethod);
    if m == "GET" then item.(get := Some(op))
    else if m == "POST" then item.(post := Some(op))
    else if m == "PUT" then item.(put := Some(op))
    else if m == "PATCH" then item.(patch := Some(op))
    else if m == "DELETE" then item.(delete := Some(op))
    else item
  }

  /** Exactly the slot of the upper-cased method changes; any other method changes nothing. */
  lemma SetOperationSlots(item: PathItem, httpMethod: string, op: Operation, m: string)
    ensures Slot(SetOperation(item, httpMethod, op), m) ==
              if m == ToUpper(httpMethod) && m in OperationMethods then Some(op) else Slot(item, m)
    ensures ToUpper(httpMethod) !in OperationMethods ==> SetOperation(item, httpMethod, op) == item
  {
  }

  /** The Path Item of a node: each endpoint's operation set in turn. */
  function NodeItem(item: PathItem, eps: seq<Repr.Endpoint>): PathItem {
    if |eps| == 0 then item
    else
      var last := eps[|eps| - 1];
      SetOperation(NodeItem(item, eps[..|eps| - 1]), last.httpMethod, EndpointOperation(last))
  }

  /** Slots that no endpoint names keep what was already there. */
  lemma {:induction false} NodeItemKeepsSlots(item: PathItem, eps: seq<Repr.Endpoint>, m: string)
    requires forall e :: e in eps ==> ToUpper(e.httpMethod) != m
    ensures Slot(NodeItem(item, eps), m) == Slot(item, m)
  {
    if |eps| > 0 {
      assert eps[|eps| - 1] in eps;
      assert forall e :: e in eps[..|eps| - 1] ==> e in eps;
      NodeItemKeepsSlots(item, eps[..|eps| - 1], m);
      SetOperationSlots(NodeItem(item, eps[..|eps| - 1]), eps[|eps| - 1].httpMethod, EndpointOperation(eps[|eps| - 1]), m);
    }
  }

  /** The last endpoint's operation is in the slot of its method. */
  lemma NodeItemLastWins(item: PathItem, eps: seq<Repr.Endpoint>)
    requires |eps| > 0 && ToUpper(eps[|eps| - 1].httpMethod) in OperationMethods
    ensures Slot(NodeItem(item, eps), ToUpper(eps[|eps| - 1].httpMethod)) == Some(EndpointOperation(eps[|eps| - 1]))
  {
    var last := eps[|eps| - 1];
    SetOperationSlots(NodeItem(item, eps[..|eps| - 1]), last.httpMethod, EndpointOperation(last), ToUpper(last.httpMethod));
  }

  // ---------------------------------------------------------------------
  // convertPaths

  function ItemAt(paths: map<string, PathItem>, key: string): PathItem {
    if key in paths then paths[key] else EmptyPathItem
  }

  /** The key of a node under a parent key. */
  function NodeKey(p: Repr.Path, parent: string): string {
    JoinPath(parent, BuildPathString(p.pathString))
  }

  /** The table after converting a tree, stated on values. */
  function ConvertTree(p: Repr.Path, paths: map<string, PathItem>, parent: string): map<string, PathItem>
    decreases p, 1
  {
    var key := NodeKey(p, parent);
    var withNode := if |p.endpoints| > 0 then paths[key := NodeItem(ItemAt(paths, key), p.endpoints)] else paths;
    ConvertChildren(p.subPaths, withNode, key)
  }

  function ConvertChildren(ps: seq<Repr.Path>, paths: map<string, PathItem>, parent: string): map<string, PathItem>
    decreases ps, 0
  {
    if |ps| == 0 then paths
    else ConvertTree(ps[|ps| - 1], ConvertChildren(ps[..|ps| - 1], paths, parent), parent)
  }

  /** The keys a tree writes: one for each node that has endpoints. */
  function TreeKeys(p: Repr.Path, parent: string): set<string>
    decreases p, 1
  {
    (if |p.endpoints| > 0 then {NodeKey(p, parent)} else {}) + ChildKeys(p.subPaths, NodeKey(p, parent))
  }

  function ChildKeys(ps: seq<Repr.Path>, parent: string): set<string>
    decreases ps, 0
  {
    if |ps| == 0 then {} else ChildKeys(ps[..|ps| - 1], parent) + TreeKeys(ps[|ps| - 1], parent)
  }

  /**
   * The table gains exactly the keys of the nodes with endpoints (a node
   * without endpoints adds none), and an entry under any other key is left
   * as it was.
   */
  lemma {:induction false} ConvertTreeKeys(p: Repr.Path, paths: map<string, PathItem>, parent: string)
    ensures forall k :: k in ConvertTree(p, paths, parent) <==> k in paths || k in TreeKeys(p, parent)
    ensures forall k :: k in paths && k !in TreeKeys(p, parent) ==> ConvertTree(p, paths, parent)[k] == paths[k]
    decreases p, 1
  {
    var key := NodeKey(p, parent);
    var withNode := if |p.endpoints| > 0 then paths[key := NodeItem(ItemAt(paths, key), p.endpoints)] else paths;
    ConvertChildrenKeys(p.subPaths, withNode, key);
  }

  lemma {:induction false} ConvertChildrenKeys(ps: seq<Repr.Path>, paths: map<string, PathItem>, parent: string)
    ensures forall k :: k in ConvertChildren(ps, paths, parent) <==> k in paths || k in ChildKeys(ps, parent)
    ensures forall k :: k in paths && k !in ChildKeys(ps, parent) ==> ConvertChildren(ps, paths, parent)[k] == paths[k]
    decreases ps, 0
  {
    if |ps| > 0 {
      ConvertChildrenKeys(ps[..|ps| - 1], paths, parent);
      ConvertTreeKeys(ps[|ps| - 1], ConvertChildren(ps[..|ps| - 1], paths, parent), parent);
    }
  }

  /** The shared table convertPaths writes into. */
  class PathTable {
    var paths: map<string, PathItem>

    constructor ()
      ensures paths == map[]
    {
      paths := map[];
    }
  }

  /** convertPaths: key the node, merge its operations into its Path Item, then walk the children. */
  method ConvertPaths(p: Repr.Path, table: PathTable, parent: string)
    modifies table
    ensures table.paths == ConvertTree(p, old(table.paths), parent)
    decreases p, 1
  {
    var pathStr := BuildPathString(p.pathString);
    var fullPath := parent;
    if pathStr != "/" {
      if fullPath == "/" {
        fullPath := pathStr;
      } else {
        fullPath := fullPath + pathStr;
      }
    } else if fullPath == "" {
      fullPath := "/";
    }
    assert fullPath == NodeKey(p, parent);
    if |p.endpoints| > 0 {
      var existing := ItemAt(table.paths, fullPath);
      var item := existing;
      for i := 0 to |p.endpoints|
        invariant table.paths == old(table.paths)
        invariant item == NodeItem(existing, p.endpoints[..i])
      {
        var op := ConvertEndpoint(p.endpoints[i]);
        assert p.endpoints[..i + 1][..i] == p.endpoints[..i];
        item := SetOperation(item, p.endpoints[i].httpMethod, op);
      }
      assert p.endpoints[..|p.endpoints|] == p.endpoints;
      table.paths := table.paths[fullPath := item];
    }
    ConvertSubPaths(p.subPaths, table, fullPath);
  }

  method ConvertSubPaths(ps: seq<Repr.Path>, table: PathTable, parent: string)
    modifies table
    ensures table.paths == ConvertChildren(ps, old(table.paths), parent)
    decreases ps, 0
  {
    for i := 0 to |ps|
      invariant table.paths == ConvertChildren(ps[..i], old(table.paths), parent)
    {
      ConvertPaths(ps[i], table, parent);
      assert ps[..i + 1][..i] == ps[..i];
    }
    assert ps[..|ps|] == ps;
  }

  // ---------------------------------------------------------------------
  // Generate

  const OpenApiVersion: string := "3.1.0"

  /**
   * Generate, up to the JSON encoder: the document records the version,
   * the title and version as given, a server only when a URL is given, and
   * the table the walk fills from an empty one.
   */
  method Generate(routes: Repr.Path, title: string, version: string, serverUrl: string) returns (doc: OpenApi)
    ensures doc.openapi == "3.1.0" && doc.info == Info(title, version)
    ensures |doc.servers| > 0 <==> serverUrl != ""
    ensures serverUrl != "" ==> doc.servers == [Server(serverUrl, "")]
    ensures doc.paths == ConvertTree(routes, map[], "")
    ensures doc.components.None?
  {
    var servers := [];
    if serverUrl != "" {
      servers := [Server(serverUrl, "")];
    }
    var table := new PathTable();
    ConvertPaths(routes, table, "");
    doc := OpenApi(OpenApiVersion, Info(title, version), servers, table.paths, None);
  }

  /** The document's keys are exactly those of the nodes with endpoints. */
  lemma DocumentKeys(routes: Repr.Path)
    ensures forall k :: k in ConvertTree(routes, map[], "") <==> k in TreeKeys(routes, "")
  {
    ConvertTreeKeys(routes, map[], "");
  }
}
