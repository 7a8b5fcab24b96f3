// The extractor (pkg/parse/server/server.go): it walks the route tree,
// checks every handler's signature, describes request and response records
// field by field and collects path segments and middleware on the way down.
// Reflection is replaced by the type descriptors of TypeDesc.

module Server {
  import opened Results
  import opened Text
  import opened Validate
  import opened TypeDesc
  import Http
  import Repr
  import StringParsers

  // ---------------------------------------------------------------------
  // Struct tags

  /** The `as` tag: `<name>,<role>` with a role among the request roles. */
  function ParseApiSpecTag(tag: map<string, string>): (r: Result<Repr.Serialization>)
    ensures r.Success? ==> r.value.serType in Repr.ApiSpecSerializationTypes
    ensures r.Success? ==> IsAllLowerAZDashUnderscore(r.value.name)
    ensures r == Failure(NoValue) <==> TagGet(tag, "as") == ""
  {
    var value := TagGet(tag, "as");
    var parts := Split(value, ',');
    if value == "" then Failure(NoValue)
    else if |parts| != 2 then Failure(BadValue("number of tag values"))
    else if !IsAllLowerAZDashUnderscore(parts[0]) then Failure(BadFormatting(parts[0]))
    else
      var serType := ToUpper(parts[1]);
      if serType !in Repr.ApiSpecSerializationTypes then Failure(BadValueFromList("serialization type"))
      else Success(Repr.Serialization(parts[0], serType))
  }

  /** The `json` tag: its first comma segment is the name, the role is JSON. */
  function ParseJsonTag(tag: map<string, string>): (r: Result<Repr.Serialization>)
    ensures r.Success? ==> r.value.serType == Repr.SerializationJSON
    ensures r.Success? ==> IsAllLowerAZDashUnderscore(r.value.name)
    ensures TagGet(tag, "json") == "" ==> r == Failure(BadValue("tag value"))
  {
    var value := TagGet(tag, "json");
    if value == "" then Failure(BadValue("tag value"))
    else
      var name := Split(value, ',')[0];
      if !IsAllLowerAZDashUnderscore(name) then Failure(BadFormatting(name))
      else Success(Repr.Serialization(name, Repr.SerializationJSON))
  }

  /**
   * parseSerialization: a well-formed `as` tag decides; only an absent one
   * lets the `json` tag decide.
   */
  function ParseSerialization(tag: map<string, string>): (r: Result<Repr.Serialization>)
    ensures r.Success? ==> IsAllLowerAZDashUnderscore(r.value.name)
    ensures TagGet(tag, "as") != "" ==> r == ParseApiSpecTag(tag)
    ensures TagGet(tag, "as") == "" ==> r == ParseJsonTag(tag)
  {
    var asTag := ParseApiSpecTag(tag);
    if asTag.Failure? && asTag.error != NoValue then Failure(asTag.error)
    else if asTag.Success? then asTag
    else ParseJsonTag(tag)
  }

  /** parseValidation: the comma-separated rules, none when the tag is absent. */
  function ParseValidation(tag: map<string, string>): (r: seq<string>)
    ensures TagGet(tag, "validate") == "" <==> r == []
  {
    var value := TagGet(tag, "validate");
    if value == "" then [] else Split(value, ',')
  }

  /** A serialization name never contains the comma that separates tag parts. */
  lemma ValidNameHasNoComma(name: string)
    requires IsAllLowerAZDashUnderscore(name)
    ensures ',' !in name
  {
    IsAllLowerAZDashUnderscoreMeaning(name);
  }

  /** `as:"<name>,<role>"` gives the name and the upper-cased role. */
  lemma ApiSpecTagRoundTrip(tag: map<string, string>, name: string, role: string)
    requires TagGet(tag, "as") == name + "," + role
    requires ',' !in role && IsAllLowerAZDashUnderscore(name)
    requires ToUpper(role) in Repr.ApiSpecSerializationTypes
    ensures ParseApiSpecTag(tag) == Success(Repr.Serialization(name, ToUpper(role)))
  {
    ValidNameHasNoComma(name);
    assert name + "," + role == name + [','] + role;
    SplitAfterSeparator(name, role, ',');
    SplitWithoutSeparator(role, ',');
  }

  /** Every accepted `as` tag has exactly that form: one comma between name and role. */
  lemma ApiSpecTagShape(tag: map<string, string>)
    requires ParseApiSpecTag(tag).Success?
    ensures var value, parts := TagGet(tag, "as"), Split(TagGet(tag, "as"), ',');
            |parts| == 2 && ',' !in parts[1] &&
            value == ParseApiSpecTag(tag).value.name + "," + parts[1] &&
            ParseApiSpecTag(tag).value.serType == ToUpper(parts[1])
  {
    var value := TagGet(tag, "as");
    var parts := Split(value, ',');
    JoinSplit(value, ',');
    SplitPiecesHaveNoSeparator(value, ',');
    assert parts[1] in parts;
    assert Join(parts, ',') == parts[0] + [','] + Join(parts[1..], ',');
    assert parts[1..] == [parts[1]];
  }

  /** `json:"<name>"` or `json:"<name>,<options>"` gives the name with role JSON. */
  lemma JsonTagRoundTrip(tag: map<string, string>, name: string, options: string)
    requires TagGet(tag, "json") == name + options
    requires IsAllLowerAZDashUnderscore(name) && (options == "" || options[0] == ',')
    ensures ParseJsonTag(tag) == Success(Repr.Serialization(name, Repr.SerializationJSON))
  {
    ValidNameHasNoComma(name);
    if options == "" {
      assert name + options == name;
      SplitWithoutSeparator(name, ',');
    } else {
      assert name + options == name + [','] + options[1..];
      SplitAfterSeparator(name, options[1..], ',');
    }
  }

  /** The rules joined by commas give back the tag; no rule holds a comma. */
  lemma ValidationRoundTrip(tag: map<string, string>)
    ensures TagGet(tag, "validate") != "" ==> Join(ParseValidation(tag), ',') == TagGet(tag, "validate")
    ensures forall rule :: rule in ParseValidation(tag) ==> ',' !in rule
  {
    JoinSplit(TagGet(tag, "validate"), ',');
    SplitPiecesHaveNoSeparator(TagGet(tag, "validate"), ',');
  }

  /** A tag written as comma-joined rules gives exactly those rules. */
  lemma ValidationOfRules(tag: map<string, string>, rules: seq<string>)
    requires |rules| >= 1 && forall rule :: rule in rules ==> ',' !in rule
    requires TagGet(tag, "validate") == Join(rules, ',') != ""
    ensures ParseValidation(tag) == rules
  {
    SplitJoin(rules, ',');
  }

  /** `as:"id,path"` marks a path parameter named id. */
  lemma PathParameterTag(tag: map<string, string>)
    requires TagGet(tag, "as") == "id,path"
    ensures ParseSerialization(tag) == Success(Repr.Serialization("id", Repr.SerializationPATH))
  {
    assert ToUpper("path") == "PATH" by {
      assert |ToUpper("path")| == 4;
      assert ToUpper("path")[0] == 'P' && ToUpper("path")[1] == 'A';
      assert ToUpper("path")[2] == 'T' && ToUpper("path")[3] == 'H';
    }
    IsAllLowerAZDashUnderscoreMeaning("id");
    assert "id,path" == "id" + "," + "path";
    ApiSpecTagRoundTrip(tag, "id", "path");
  }

  /** The serialization and validation rules read from one field's tag. */
  datatype FieldTag = FieldTag(serialization: Repr.Serialization, validation: seq<string>)

  /** isAnonStruct: an embedded field whose type is a struct. */
  predicate IsAnonStruct(f: FieldDesc) {
    f.typ.KindOf() == Struct && f.anonymous
  }

  /** parseFieldTag: embedded structs are never described by a tag. */
  function ParseFieldTag(f: FieldDesc): (r: Result<FieldTag>)
    ensures IsAnonStruct(f) ==> r == Failure(FatalStructIsAnon)
    ensures r.Success? ==> Success(r.value.serialization) == ParseSerialization(f.tag)
  {
    if IsAnonStruct(f) then Failure(FatalStructIsAnon)
    else
      var serialization :- ParseSerialization(f.tag);
      Success(FieldTag(serialization, ParseValidation(f.tag)))
  }

  // ---------------------------------------------------------------------
  // Field extraction

  /**
   * The shape of every description the extractor builds: a primitive kind
   * is a leaf; arrays and slices become `Array` with one element
   * description; a map becomes `Map` with a `key` leaf of an admitted key
   * kind and a value description; a struct holds one description per field,
   * each with its serialization.
   */
  predicate WellKinded(sf: Repr.StructField)
    decreases sf
  {
    if sf.kind == Array then
      |sf.subFields| == 1 && WellKinded(sf.subFields[0])
    else if sf.kind == Map then
      |sf.subFields| == 2 && sf.subFields[0].name == "key" &&
      sf.subFields[0].kind in AllowedMapKeyKinds && sf.subFields[0].subFields == [] &&
      WellKinded(sf.subFields[1])
    else if sf.kind == Struct then
      forall i :: 0 <= i < |sf.subFields| ==>
        sf.subFields[i].serialization.Some? && WellKinded(sf.subFields[i])
    else
      sf.kind in PrimitiveKinds && sf.subFields == []
  }

  /** A leaf description of a kind with no structure. */
  function Primitive(k: Kind): Repr.StructField {
    Repr.StructField("", k, None, [], [])
  }

  /** parseBodyField: resolve at most one pointer, then describe by kind. */
  function ParseBodyField(t: Type): (r: Result<Repr.StructField>)
    ensures r.Success? ==> WellKinded(r.value)
    decreases t, 3
  {
    ExtractFieldTypeMeaning(t);
    var resolved :- ExtractFieldType(t);
    ParseKind(resolved)
  }

  /** The kind switch of parseBodyField, with parseArraySlice, parseStruct and parseMap. */
  function ParseKind(t: Type): (r: Result<Repr.StructField>)
    ensures r.Success? ==> WellKinded(r.value)
    decreases t, 2
  {
    var k := t.KindOf();
    if k in PrimitiveKinds then Success(Primitive(k))
    else if t.ArrayOf? || t.SliceOf? then
      var element :- ParseBodyField(t.elem);
      Success(Repr.StructField("", Array, None, [], [element]))
    else if t.StructOf? then
      var fields :- ParseFields(t.fields);
      Success(Repr.StructField(t.name, Struct, None, [], fields))
    else if t.MapOf? then
      if t.key.KindOf() !in AllowedMapKeyKinds then Failure(BadValueFromList("map key type"))
      else
        var value :- ParseBodyField(t.elem);
        Success(Repr.StructField("", Map, None, [], [Repr.StructField("key", t.key.KindOf(), None, [], []), value]))
    else Failure(FatalUnreachable)
  }

  /**
   * The loop of parseStruct over structFieldIter, fused: the fields in
   * declaration order, each embedded struct replaced by its own fields.
   */
  function ParseFields(fs: seq<FieldDesc>): (r: Result<seq<Repr.StructField>>)
    ensures r.Success? ==> forall i :: 0 <= i < |r.value| ==>
              r.value[i].serialization.Some? && WellKinded(r.value[i])
    decreases fs, 1
  {
    if |fs| == 0 then Success([])
    else
      var first :- ParseFieldGroup(fs[0]);
      var rest :- ParseFields(fs[1..]);
      Success(first + rest)
  }

  /** One declared field: the fields of an embedded struct, or the field itself. */
  function ParseFieldGroup(f: FieldDesc): (r: Result<seq<Repr.StructField>>)
    ensures r.Success? ==> forall i :: 0 <= i < |r.value| ==>
              r.value[i].serialization.Some? && WellKinded(r.value[i])
    decreases f, 1
  {
    if IsAnonStruct(f) then ParseFields(f.typ.fields)
    else
      var field :- ParseField(f);
      Success([field])
  }

  /** One field yielded by structFieldIter: its tag, then its type. */
  function ParseField(f: FieldDesc): (r: Result<Repr.StructField>)
    ensures r.Success? ==> r.value.name == f.name && r.value.serialization.Some?
    ensures r.Success? ==> WellKinded(r.value)
    decreases f, 0
  {
    var tag :- ParseFieldTag(f);
    var body :- ParseBodyField(f.typ);
    Success(Repr.StructField(f.name, body.kind, Some(tag.serialization), tag.validation, body.subFields))
  }

  /** structFieldIter as a sequence: embedded structs spliced in place. */
  function FlattenFields(fs: seq<FieldDesc>): seq<FieldDesc>
    decreases fs, 1
  {
    if |fs| == 0 then [] else FieldGroup(fs[0]) + FlattenFields(fs[1..])
  }

  function FieldGroup(f: FieldDesc): seq<FieldDesc>
    decreases f, 0
  {
    if IsAnonStruct(f) then FlattenFields(f.typ.fields) else [f]
  }

  /** Parsing the fields of a struct is parsing each field structFieldIter yields. */
  lemma {:induction false} ParseFieldsFlatten(fs: seq<FieldDesc>)
    ensures ParseFields(fs) == MapResult(FlattenFields(fs), ParseField)
    decreases fs, 1
  {
    if |fs| > 0 {
      ParseFieldGroupFlatten(fs[0]);
      ParseFieldsFlatten(fs[1..]);
      MapResultConcat(FieldGroup(fs[0]), FlattenFields(fs[1..]), ParseField);
    }
  }

  lemma {:induction false} ParseFieldGroupFlatten(f: FieldDesc)
    ensures ParseFieldGroup(f) == MapResult(FieldGroup(f), ParseField)
    decreases f, 0
  {
    if IsAnonStruct(f) {
      ParseFieldsFlatten(f.typ.fields);
    } else {
      var none: seq<FieldDesc> := [];
      assert [f][1..] == none;
      assert MapResult(none, ParseField) == Success([]);
      match ParseField(f)
      case Failure(_) =>
      case Success(x) =>
        assert [x] + [] == [x];
    }
  }

  /** structFieldIter never yields an embedded struct: they are all spliced. */
  lemma {:induction false} FlattenHasNoEmbeddedStruct(fs: seq<FieldDesc>)
    ensures forall g :: g in FlattenFields(fs) ==> !IsAnonStruct(g)
    decreases fs, 1
  {
    if |fs| > 0 {
      FieldGroupHasNoEmbeddedStruct(fs[0]);
      FlattenHasNoEmbeddedStruct(fs[1..]);
    }
  }

  lemma {:induction false} FieldGroupHasNoEmbeddedStruct(f: FieldDesc)
    ensures forall g :: g in FieldGroup(f) ==> !IsAnonStruct(g)
    decreases f, 0
  {
    if IsAnonStruct(f) {
      FlattenHasNoEmbeddedStruct(f.typ.fields);
    }
  }

  /** Fields declared without embedding come out as they are, in order. */
  lemma {:induction false} FlattenWithoutEmbedding(fs: seq<FieldDesc>)
    requires forall i :: 0 <= i < |fs| ==> !IsAnonStruct(fs[i])
    ensures FlattenFields(fs) == fs
  {
    if |fs| > 0 {
      FlattenWithoutEmbedding(fs[1..]);
      assert fs == [fs[0]] + fs[1..];
    }
  }

  lemma {:induction false} FlattenAppend(a: seq<FieldDesc>, b: seq<FieldDesc>)
    ensures FlattenFields(a + b) == FlattenFields(a) + FlattenFields(b)
  {
    if |a| == 0 {
      assert a + b == b;
    } else {
      assert (a + b)[1..] == a[1..] + b;
      FlattenAppend(a[1..], b);
    }
  }

  /** The two steps of parseStruct's loop body decide the field's description. */
  lemma ParseFieldSteps(f: FieldDesc)
    ensures ParseFieldTag(f).Failure? ==> ParseField(f) == Failure(ParseFieldTag(f).error)
    ensures ParseFieldTag(f).Success? && ParseBodyField(f.typ).Failure? ==>
              ParseField(f) == Failure(ParseBodyField(f.typ).error)
    ensures ParseFieldTag(f).Success? && ParseBodyField(f.typ).Success? ==>
              var tag, body := ParseFieldTag(f).value, ParseBodyField(f.typ).value;
              ParseField(f) ==
              Success(Repr.StructField(f.name, body.kind, Some(tag.serialization), tag.validation, body.subFields))
  {
  }

  /** structFieldIter: the fields of a struct, embedded structs spliced in place. */
  method StructFieldIter(s: Type) returns (fields: seq<FieldDesc>)
    ensures fields == if s.StructOf? then FlattenFields(s.fields) else []
    decreases s
  {
    fields := [];
    if !s.StructOf? {
      return;
    }
    var i := 0;
    while i < |s.fields|
      invariant 0 <= i <= |s.fields|
      invariant fields == FlattenFields(s.fields[..i])
    {
      var sf := s.fields[i];
      assert s.fields[..i + 1] == s.fields[..i] + [sf];
      FlattenAppend(s.fields[..i], [sf]);
      assert [sf][1..] == [];
      if IsAnonStruct(sf) {
        var embedded := StructFieldIter(sf.typ);
        fields := fields + embedded;
      } else {
        fields := fields + [sf];
      }
      i := i + 1;
    }
    assert s.fields[..i] == s.fields;
  }

  /** parseStruct: one description per yielded field, stopping at the first error. */
  method ParseStruct(s: Type) returns (r: Result<Repr.StructField>)
    requires s.StructOf?
    ensures r == ParseKind(s)
  {
    StructKind(s);
    var fields := StructFieldIter(s);
    var described: seq<Repr.StructField> := [];
    var i := 0;
    while i < |fields|
      invariant 0 <= i <= |fields|
      invariant MapResult(fields[..i], ParseField) == Success(described)
    {
      var f := fields[i];
      ParseFieldSteps(f);
      var tag := ParseFieldTag(f);
      if tag.Failure? {
        MapResultStop(fields, i, ParseField, described);
        return Failure(tag.error);
      }
      var body := ParseBodyField(f.typ);
      if body.Failure? {
        MapResultStop(fields, i, ParseField, described);
        return Failure(body.error);
      }
      MapResultStep(fields, i, ParseField, described);
      described := described + [Repr.StructField(f.name, body.value.kind, Some(tag.value.serialization),
                                                 tag.value.validation, body.value.subFields)];
      i := i + 1;
    }
    assert fields[..i] == fields;
    return Success(Repr.StructField(s.name, Struct, None, [], described));
  }

  /** A pointer to a non-pointer is described as its pointee; two pointers are refused. */
  lemma PointerShape(t: Type)
    ensures !t.PointerTo? ==> ParseBodyField(PointerTo(t)) == ParseBodyField(t)
    ensures ParseBodyField(PointerTo(PointerTo(t))) == Failure(SinglePointerRequired)
  {
    ExtractFieldTypeMeaning(t);
  }

  /** Arrays and slices of one element type are described alike: `Array` of the element. */
  lemma ArraySliceShape(t: Type, n: nat)
    ensures ParseBodyField(ArrayOf(n, t)) == ParseBodyField(SliceOf(t))
    ensures ParseBodyField(SliceOf(t)).Success? <==> ParseBodyField(t).Success?
    ensures ParseBodyField(t).Success? ==>
              ParseBodyField(SliceOf(t)) == Success(Repr.StructField("", Array, None, [], [ParseBodyField(t).value]))
  {
    ExtractFieldTypeMeaning(ArrayOf(n, t));
    ExtractFieldTypeMeaning(SliceOf(t));
  }

  /**
   * A map is described by a `key` leaf and its value; a key kind outside the
   * admitted list is refused before the value is looked at.
   */
  lemma MapShape(k: Type, v: Type)
    ensures k.KindOf() !in AllowedMapKeyKinds ==>
              ParseBodyField(MapOf(k, v)) == Failure(BadValueFromList("map key type"))
    ensures k.KindOf() in AllowedMapKeyKinds && ParseBodyField(v).Success? ==>
              ParseBodyField(MapOf(k, v)) ==
              Success(Repr.StructField("", Map, None, [], [Repr.StructField("key", k.KindOf(), None, [], []),
                                                          ParseBodyField(v).value]))
  {
    ExtractFieldTypeMeaning(MapOf(k, v));
  }

  /** The struct branch of the kind switch, in terms of the flattened fields. */
  lemma StructKind(s: Type)
    requires s.StructOf?
    ensures ParseKind(s) ==
              match MapResult(FlattenFields(s.fields), ParseField)
              case Failure(e) => Failure(e)
              case Success(fields) => Success(Repr.StructField(s.name, Struct, None, [], fields))
  {
    ParseFieldsFlatten(s.fields);
  }

  /** A struct is described by its flattened fields in order. */
  lemma StructShape(s: Type)
    requires s.StructOf?
    ensures ParseBodyField(s).Success? <==> MapResult(FlattenFields(s.fields), ParseField).Success?
    ensures ParseBodyField(s).Success? ==>
              ParseBodyField(s).value ==
              Repr.StructField(s.name, Struct, None, [], MapResult(FlattenFields(s.fields), ParseField).value)
  {
    ExtractFieldTypeMeaning(s);
    StructKind(s);
  }

  // ---------------------------------------------------------------------
  // Handlers

  /** The request and response record types of a handler. */
  datatype Signature = Signature(request: Type, response: Type)

  /** func(context.Context, *struct{...}) (*struct{...}, error) */
  predicate IsHandlerSignature(fn: Type) {
    fn.FuncOf? && |fn.ins| == 2 && |fn.outs| == 2 &&
    fn.ins[0].implementsContext && fn.outs[1].implementsError &&
    fn.ins[1].typ.PointerTo? && fn.ins[1].typ.elem.StructOf? &&
    fn.outs[0].typ.PointerTo? && fn.outs[0].typ.elem.StructOf?
  }

  /**
   * parseFnSignature: the counts are checked first, then the context, the
   * request pointer, the response pointer and the error, in that order.
   */
  function ParseFnSignature(fn: Type): (r: Result<Signature>)
    requires fn.FuncOf?
    ensures |fn.ins| != 2 ==> r == Failure(BadValue("parameter number"))
    ensures |fn.ins| == 2 && |fn.outs| != 2 ==> r == Failure(BadValue("result number"))
    ensures r.Success? ==> r.value.request.StructOf? && r.value.response.StructOf?
  {
    if |fn.ins| != 2 then Failure(BadValue("parameter number"))
    else if |fn.outs| != 2 then Failure(BadValue("result number"))
    else
      var ctxType, reqPtrType, resPtrType, errType := fn.ins[0], fn.ins[1].typ, fn.outs[0].typ, fn.outs[1];
      if !ctxType.implementsContext then Failure(BadType("context.Context"))
      else if !reqPtrType.PointerTo? then Failure(BadType("*struct{...}"))
      else if !reqPtrType.elem.StructOf? then Failure(BadType("*struct{...}"))
      else if !resPtrType.PointerTo? then Failure(BadType("*struct{...}"))
      else if !resPtrType.elem.StructOf? then Failure(BadType("*struct{...}"))
      else if !errType.implementsError then Failure(BadType("error"))
      else Success(Signature(reqPtrType.elem, resPtrType.elem))
  }

  /** The checks accept exactly the handler shape and return the two pointees. */
  lemma FnSignatureMeaning(fn: Type)
    requires fn.FuncOf?
    ensures ParseFnSignature(fn).Success? <==> IsHandlerSignature(fn)
    ensures ParseFnSignature(fn).Success? ==>
              fn.ins[1].typ == PointerTo(ParseFnSignature(fn).value.request) &&
              fn.outs[0].typ == PointerTo(ParseFnSignature(fn).value.response)
  {
  }

  /** A request record behind two pointers is refused as a bad type. */
  lemma DoublePointerRequest(ctx: Param, t: Type, outs: seq<Param>)
    requires ctx.implementsContext && |outs| == 2
    ensures ParseFnSignature(FuncOf([ctx, Param(PointerTo(PointerTo(t)), false, false)], outs))
            == Failure(BadType("*struct{...}"))
  {
  }

  /** parseFnIdents: only functions, named by the runtime. */
  function ParseFnIdents(fn: FnValue): (r: Result<Repr.Handler>)
    ensures fn.typ.KindOf() != Func ==> r == Failure(FatalInvalidParam("func"))
    ensures fn.typ.KindOf() == Func ==> r == StringParsers.ParseIdentsFromQualifiedName(fn.qualifiedName)
  {
    if fn.typ.KindOf() != Func then Failure(FatalInvalidParam("func"))
    else StringParsers.ParseIdentsFromQualifiedName(fn.qualifiedName)
  }

  /** parseData: a struct record described by its type name, package and fields. */
  function ParseData(s: Type): (r: Result<Repr.Data>)
    ensures !s.StructOf? ==> r == Failure(FatalInvalidParam("struct"))
    ensures r.Success? ==> r.value.name == s.Name() && r.value.importPath == s.PkgPath()
    ensures r.Success? ==> forall i :: 0 <= i < |r.value.fields| ==>
              r.value.fields[i].serialization.Some? && WellKinded(r.value.fields[i])
  {
    if s.KindOf() != Struct then Failure(FatalInvalidParam("struct"))
    else
      StructShape(s);
      var body :- ParseBodyField(s);
      Success(Repr.Data(body.name, s.PkgPath(), body.subFields))
  }

  /** The record's fields are the parsed flattened fields, one for one. */
  lemma DataFields(s: Type)
    requires s.StructOf?
    ensures ParseData(s).Success? <==> MapResult(FlattenFields(s.fields), ParseField).Success?
    ensures ParseData(s).Success? ==>
              ParseData(s).value.fields == MapResult(FlattenFields(s.fields), ParseField).value
  {
    StructShape(s);
  }

  /** parseHandler: the handler's identity, signature, records and own middleware. */
  function ParseHandler(ep: Http.Endpoint, m: Http.Method, paths: seq<Repr.PathString>): (r: Result<Repr.Endpoint>)
    ensures r.Success? ==> IsHandlerSignature(ep.handler.typ)
    ensures r.Success? ==> r.value.httpMethod == m && r.value.path == paths
    ensures r.Success? ==> r.value.authorization == ep.authz && r.value.description == ep.description
    ensures r.Success? ==> |r.value.middleware| == |ep.middleware|
    ensures ep.handler.typ.KindOf() != Func ==> r == Failure(BadType("function"))
  {
    if ep.handler.typ.KindOf() != Func then Failure(BadType("function"))
    else
      var handler :- ParseFnIdents(ep.handler);
      var signature :- ParseFnSignature(ep.handler.typ);
      FnSignatureMeaning(ep.handler.typ);
      var body :- ParseData(signature.request);
      var response :- ParseData(signature.response);
      var middleware :- MapResult(ep.middleware, ParseFnIdents);
      Success(Repr.Endpoint(m, paths, [], [], ep.authz, ep.description, body, response, handler, middleware))
  }

  /** An anonymous function is never accepted as a handler. */
  lemma AnonymousHandlerRefused(ep: Http.Endpoint, m: Http.Method, paths: seq<Repr.PathString>)
    requires ep.handler.typ.KindOf() == Func
    requires StringParsers.IsFnAnonymousByQualifiedName(ep.handler.qualifiedName)
    ensures ParseHandler(ep, m, paths) == Failure(FnIsAnon)
  {
  }

  // ---------------------------------------------------------------------
  // Endpoints, middleware and the tree

  /** One entry of the endpoint map; a failure is reported as a signature error. */
  function ParseEndpointEntry(entry: (Http.Method, Http.Endpoint), paths: seq<Repr.PathString>): Result<Repr.Endpoint> {
    match ParseHandler(entry.1, entry.0, paths)
    case Failure(e) => Failure(FnSignature(e))
    case Success(endpoint) => Success(endpoint)
  }

  /** What parseEndpoints returns for a node's endpoint entries. */
  function ParsedEndpoints(entries: seq<(Http.Method, Http.Endpoint)>, paths: seq<Repr.PathString>): Result<seq<Repr.Endpoint>> {
    MapResult(entries, entry => ParseEndpointEntry(entry, paths))
  }

  /** parseEndpoints: every entry, in the order the map is ranged over. */
  method ParseEndpoints(entries: seq<(Http.Method, Http.Endpoint)>, paths: seq<Repr.PathString>)
    returns (r: Result<seq<Repr.Endpoint>>)
    ensures r == ParsedEndpoints(entries, paths)
  {
    var parse := entry => ParseEndpointEntry(entry, paths);
    var endpoints: seq<Repr.Endpoint> := [];
    var i := 0;
    while i < |entries|
      invariant 0 <= i <= |entries|
      invariant MapResult(entries[..i], parse) == Success(endpoints)
    {
      var endpoint := ParseHandler(entries[i].1, entries[i].0, paths);
      if endpoint.Failure? {
        MapResultStop(entries, i, parse, endpoints);
        return Failure(FnSignature(endpoint.error));
      }
      MapResultStep(entries, i, parse, endpoints);
      endpoints := endpoints + [endpoint.value];
      i := i + 1;
    }
    assert entries[..i] == entries;
    return Success(endpoints);
  }

  /** Each parsed endpoint carries its entry's method, the chain and its authorization. */
  lemma ParsedEndpointsMeaning(entries: seq<(Http.Method, Http.Endpoint)>, paths: seq<Repr.PathString>)
    requires ParsedEndpoints(entries, paths).Success?
    ensures |ParsedEndpoints(entries, paths).value| == |entries|
    ensures forall i :: 0 <= i < |entries| ==>
              var e := ParsedEndpoints(entries, paths).value[i];
              e.httpMethod == entries[i].0 && e.path == paths && e.authorization == entries[i].1.authz
  {
    var parse := entry => ParseEndpointEntry(entry, paths);
    MapResultSuccess(entries, parse, ParsedEndpoints(entries, paths).value);
  }

  /** What parseMiddleware returns for a list of middleware functions. */
  function ParsedMiddleware(fns: seq<FnValue>): Result<seq<Repr.Middleware>> {
    MapResult(fns, ParseFnIdents)
  }

  /** parseMiddleware: every function in order, stopping at the first error. */
  method ParseMiddleware(fns: seq<FnValue>) returns (r: Result<seq<Repr.Middleware>>)
    ensures r == ParsedMiddleware(fns)
  {
    var middleware: seq<Repr.Middleware> := [];
    var i := 0;
    while i < |fns|
      invariant 0 <= i <= |fns|
      invariant MapResult(fns[..i], ParseFnIdents) == Success(middleware)
    {
      var handler := ParseFnIdents(fns[i]);
      if handler.Failure? {
        MapResultStop(fns, i, ParseFnIdents, middleware);
        return Failure(handler.error);
      }
      MapResultStep(fns, i, ParseFnIdents, middleware);
      middleware := middleware + [handler.value];
      i := i + 1;
    }
    assert fns[..i] == fns;
    return Success(middleware);
  }

  /** ParsePathString: the builder's kind as the representation's, name copied. */
  function ParsePathString(route: Http.Route): (ps: Repr.PathString)
    ensures ps.name == route.name
    ensures route.pathType == Http.PathRoot ==> ps.pathType == Repr.PathROOT
    ensures route.pathType == Http.PathStatic ==> ps.pathType == Repr.PathSTATIC
    ensures route.pathType == Http.PathParam ==> ps.pathType == Repr.PathPARAM
    ensures route.pathType !in {Http.PathRoot, Http.PathStatic, Http.PathParam} ==> ps.pathType == ""
  {
    var t :=
      if route.pathType == Http.PathRoot then Repr.PathROOT
      else if route.pathType == Http.PathStatic then Repr.PathSTATIC
      else if route.pathType == Http.PathParam then Repr.PathPARAM
      else "";
    Repr.PathString(route.name, t)
  }

  /** A segment renders in a URL exactly when the builder gave it a known kind. */
  lemma PathStringRenders(route: Http.Route)
    ensures Repr.PathTypeToURL(ParsePathString(route)).Success? <==>
              route.pathType in {Http.PathRoot, Http.PathStatic, Http.PathParam}
  {
    if route.pathType !in {Http.PathRoot, Http.PathStatic, Http.PathParam} {
      assert "" != Repr.PathROOT && "" != Repr.PathSTATIC && "" != Repr.PathPARAM;
    }
  }

  /**
   * traversePathsIter: the node's segment is appended to the chain, its
   * endpoints and middleware parsed, its middleware appended to the
   * inherited list, then each child is walked with both.
   */
  function Traverse(route: Http.Route, paths: seq<Repr.PathString>, parentMiddleware: seq<Repr.Middleware>)
    : (r: Result<Repr.Path>)
    ensures r.Success? ==> r.value.pathString == ParsePathString(route)
    ensures r.Success? ==> parentMiddleware <= r.value.middleware
    ensures r.Success? ==> |r.value.subPaths| == |route.subPaths| && |r.value.endpoints| == |route.endpoints|
    decreases route, 1
  {
    var ps := ParsePathString(route);
    var chain := paths + [ps];
    var endpoints :- ParsedEndpoints(route.endpoints, chain);
    ParsedEndpointsMeaning(route.endpoints, chain);
    var middleware :- ParsedMiddleware(route.middleware);
    var accumulated := parentMiddleware + middleware;
    var subPaths :- TraverseAll(route.subPaths, chain, accumulated);
    Success(Repr.Path(ps, endpoints, accumulated, subPaths))
  }

  /** The children in order; the first that fails aborts the walk. */
  function TraverseAll(routes: seq<Http.Route>, paths: seq<Repr.PathString>, middleware: seq<Repr.Middleware>)
    : (r: Result<seq<Repr.Path>>)
    ensures r.Success? ==> |r.value| == |routes|
    decreases routes, 0
  {
    if |routes| == 0 then Success([])
    else
      var first :- Traverse(routes[0], paths, middleware);
      var rest :- TraverseAll(routes[1..], paths, middleware);
      Success([first] + rest)
  }

  /** ParsePaths: the walk from the root with an empty chain and no middleware. */
  function ParsePaths(config: Http.Route): Result<Repr.Path> {
    Traverse(config, [], [])
  }

  lemma {:induction false} TraverseAllIsMap(routes: seq<Http.Route>, paths: seq<Repr.PathString>, middleware: seq<Repr.Middleware>)
    ensures TraverseAll(routes, paths, middleware) == MapResult(routes, route => Traverse(route, paths, middleware))
  {
    if |routes| > 0 {
      TraverseAllIsMap(routes[1..], paths, middleware);
    }
  }

  /** traversePathsIter itself: the children walked in a loop, recursively. */
  method TraversePaths(route: Http.Route, paths: seq<Repr.PathString>, parentMiddleware: seq<Repr.Middleware>)
    returns (r: Result<Repr.Path>)
    ensures r == Traverse(route, paths, parentMiddleware)
    decreases route
  {
    var ps := ParsePathString(route);
    var chain := paths + [ps];
    var endpoints := ParseEndpoints(route.endpoints, chain);
    if endpoints.Failure? {
      return Failure(endpoints.error);
    }
    var middleware := ParseMiddleware(route.middleware);
    if middleware.Failure? {
      return Failure(middleware.error);
    }
    var accumulated := parentMiddleware + middleware.value;
    var walk := child => Traverse(child, chain, accumulated);
    TraverseAllIsMap(route.subPaths, chain, accumulated);
    var subPaths: seq<Repr.Path> := [];
    var i := 0;
    while i < |route.subPaths|
      invariant 0 <= i <= |route.subPaths|
      invariant MapResult(route.subPaths[..i], walk) == Success(subPaths)
    {
      var path := TraversePaths(route.subPaths[i], chain, accumulated);
      if path.Failure? {
        MapResultStop(route.subPaths, i, walk, subPaths);
        return Failure(path.error);
      }
      MapResultStep(route.subPaths, i, walk, subPaths);
      subPaths := subPaths + [path.value];
      i := i + 1;
    }
    assert route.subPaths[..i] == route.subPaths;
    return Success(Repr.Path(ps, endpoints.value, accumulated, subPaths));
  }

  /**
   * What a successful walk produces, node by node: the node's segment; its
   * endpoints one per entry with the entry's method, the chain down to the
   * node and the entry's authorization; the inherited middleware followed
   * by the node's own; and one child per input child, walked with the
   * extended chain and the node's middleware.
   */
  ghost predicate Mirrors(route: Http.Route, p: Repr.Path, paths: seq<Repr.PathString>, parentMiddleware: seq<Repr.Middleware>)
    decreases route
  {
    var chain := paths + [ParsePathString(route)];
    p.pathString == ParsePathString(route) &&
    |p.endpoints| == |route.endpoints| &&
    (forall i :: 0 <= i < |p.endpoints| ==>
       p.endpoints[i].httpMethod == route.endpoints[i].0 && p.endpoints[i].path == chain &&
       p.endpoints[i].authorization == route.endpoints[i].1.authz) &&
    |parentMiddleware| <= |p.middleware| && p.middleware[..|parentMiddleware|] == parentMiddleware &&
    ParsedMiddleware(route.middleware) == Success(p.middleware[|parentMiddleware|..]) &&
    |p.subPaths| == |route.subPaths| &&
    forall i :: 0 <= i < |route.subPaths| ==> Mirrors(route.subPaths[i], p.subPaths[i], chain, p.middleware)
  }

  /** Every successful walk mirrors its input tree. */
  lemma {:induction false} TraverseMirrors(route: Http.Route, paths: seq<Repr.PathString>, parentMiddleware: seq<Repr.Middleware>)
    requires Traverse(route, paths, parentMiddleware).Success?
    ensures Mirrors(route, Traverse(route, paths, parentMiddleware).value, paths, parentMiddleware)
    decreases route, 1
  {
    var chain := paths + [ParsePathString(route)];
    var p := Traverse(route, paths, parentMiddleware).value;
    var own := ParsedMiddleware(route.middleware).value;
    ParsedEndpointsMeaning(route.endpoints, chain);
    TraverseAllMirrors(route.subPaths, chain, p.middleware);
    assert p.middleware == parentMiddleware + own;
    assert p.middleware[..|parentMiddleware|] == parentMiddleware;
    assert p.middleware[|parentMiddleware|..] == own;
  }

  lemma {:induction false} TraverseAllMirrors(routes: seq<Http.Route>, paths: seq<Repr.PathString>, middleware: seq<Repr.Middleware>)
    requires TraverseAll(routes, paths, middleware).Success?
    ensures |TraverseAll(routes, paths, middleware).value| == |routes|
    ensures forall i :: 0 <= i < |routes| ==>
              Mirrors(routes[i], TraverseAll(routes, paths, middleware).value[i], paths, middleware)
    decreases routes, 0
  {
    if |routes| > 0 {
      var ps := TraverseAll(routes, paths, middleware).value;
      TraverseMirrors(routes[0], paths, middleware);
      TraverseAllMirrors(routes[1..], paths, middleware);
      forall i | 0 < i < |routes|
        ensures Mirrors(routes[i], ps[i], paths, middleware)
      {
        assert routes[i] == routes[1..][i - 1];
        assert ps[i] == ps[1..][i - 1];
      }
    }
  }

  /** The first child whose walk fails decides the error of the whole walk. */
  lemma FirstFailingChildAborts(route: Http.Route, paths: seq<Repr.PathString>, parentMiddleware: seq<Repr.Middleware>, k: nat)
    requires ParsedEndpoints(route.endpoints, paths + [ParsePathString(route)]).Success?
    requires ParsedMiddleware(route.middleware).Success?
    requires k < |route.subPaths|
    requires var chain, accumulated := paths + [ParsePathString(route)], parentMiddleware + ParsedMiddleware(route.middleware).value;
             Traverse(route.subPaths[k], chain, accumulated).Failure? &&
             forall i :: 0 <= i < k ==> Traverse(route.subPaths[i], chain, accumulated).Success?
    ensures var chain, accumulated := paths + [ParsePathString(route)], parentMiddleware + ParsedMiddleware(route.middleware).value;
            Traverse(route, paths, parentMiddleware) == Failure(Traverse(route.subPaths[k], chain, accumulated).error)
  {
    var chain, accumulated := paths + [ParsePathString(route)], parentMiddleware + ParsedMiddleware(route.middleware).value;
    TraverseAllIsMap(route.subPaths, chain, accumulated);
    MapResultFirstFailure(route.subPaths, child => Traverse(child, chain, accumulated), k);
  }
}
