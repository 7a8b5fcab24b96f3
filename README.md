# apispec, modelled in Dafny

apispec takes a tree of HTTP routes built with a small builder API. From that tree it produces two things:

- Go registration code for the Fiber web framework;
- an OpenAPI 3.1.0 document.

Both outputs are made from one intermediate representation (IR). This project models the path from the builder to the data each output is made from, and proves properties of it:

- **the route-tree builder** (`pkg/http/entity.go`): a class of mutable nodes;
- **the extractor** (`pkg/parse/server`), which covers:
  - the walk over the builder tree and the handler signature check;
  - splitting the runtime name of a function into package, receiver and name;
  - the `as`/`json`/`validate` tag parsers;
  - flattening of embedded structs and the kind rules.

  Reflection is replaced by a type-descriptor datatype (`TypeDesc.Type`). A function value is a type plus the qualified name the runtime reports for it.
- **the IR** (`pkg/repr/http`): its datatypes, the filtering iterators (as sequence filters) and the URL renderer;
- **the symbol allocator** of the Fiber generator (`pkg/gen/set.go`): import and receiver sets that are sorted and given identifiers `a`, `b`, …, `z`, `az`, … with an `i` or `r` suffix;
- **the Fiber generator** (`pkg/gen/generate.go`), which covers:
  - the pre-order walk that collects one view per endpoint;
  - identifier enrichment;
  - the method-name, middleware and parameter helpers;
- **the older Fiber generator** (`generate.go`). It hands out identifiers in first-insertion order and encodes receivers as newline-joined text keys;
- **the OpenAPI generator** (`pkg/gen/openapi`): path keys, one Path Item per key, operations, parameters, request bodies and schemas.

Modelling conventions:

- Go panics (a nil dereference, an index out of range, a malformed key) are modelled as `Failure(Panic(...))` results.
- A Go map lookup of an absent key gives the zero value (`""` or `0`), as in the source.
- State the source updates in place is a `class` with `modifies` clauses:
  - the builder's `Path`;
  - `SymbolSet` (set.go);
  - `InsertionSet` (the older `set`);
  - `PathTable` (the OpenAPI `paths` map).
- Loops are methods proved against specification functions on values.

## Model

| member | source | states |
|---|---|---|
| Validate.IsAllLowerAZMeaning | pkg/parse/server/validate.go:3-10 | isAllLowerAZ holds iff the string is non-empty and every character is in 'a'..'z' |
| Validate.IsAllLowerAZDashUnderscoreMeaning | pkg/parse/server/validate.go:12-20 | isAllLowerA_Z holds iff the string is non-empty and every character is in 'a'..'z', '-' or '_' |
| Validate.IsAllLowerAZ | pkg/parse/server/validate.go:3-10 | an accepted string is non-empty and starts with a letter in 'a'..'z' |
| Validate.IsAllLowerAZDashUnderscore | pkg/parse/server/validate.go:12-20 | an accepted string is non-empty and its first character is in 'a'..'z', '-' or '_' |
| Validate.AllCharsEvery | pkg/parse/server/validate.go:3-20 | the early-return loop over the characters accepts iff every character passes |
| Validate.LowerAZImpliesDashUnderscore | pkg/parse/server/validate.go:3-20 | every string the narrower validator accepts, the wider one accepts |
| Validate.ValidatorTable | pkg/parse/server/validate_test.go:5-24 | "" rejected by both; "a_z", "a-z", "-", "_" accepted; "A" rejected |
| StringParsers.ParseIdentsFromQualifiedName | pkg/parse/server/string_parsers.go:14-34 | a name with no '/' is refused as anonymous before any other parsing |
| StringParsers.SplitAtPackage | pkg/parse/server/string_parsers.go:14-34 | the last '/' is the one in the package path; the dotted part starts at it; Import is the text up to the package segment |
| StringParsers.QualifiedFromDotted | pkg/parse/server/string_parsers.go:14-34 | the handler is assembled from the parsed dotted part: name, receiver, and the package path as import |
| StringParsers.DottedFunction | pkg/parse/server/string_parsers.go:36-52 | two dot segments give a free function named by the second |
| StringParsers.DottedMethod | pkg/parse/server/string_parsers.go:36-52 | three dot segments give the third cut at its first '-', with the receiver parsed from the middle |
| StringParsers.CutAtDash | pkg/parse/server/string_parsers.go:36-52 | cutting "name-suffix" at the first '-' gives back exactly the name |
| StringParsers.MethodSegments | pkg/parse/server/string_parsers.go:14-52 | the dotted part of a method's runtime name splits into package, receiver and method segments |
| StringParsers.ParseMethodReceiverText | pkg/parse/server/string_parsers.go:54-67 | `(*T)` parses to a pointer receiver T and `T` to a value receiver T |
| StringParsers.ParseMethodExamples | pkg/parse/server/string_parsers.go:54-67 | `(*Service)`, `User`; "" panics; `User)` takes the pointer branch (because of `&&`); `()` panics |
| StringParsers.ParseFreeFunctionName | pkg/parse/server/string_parsers.go:14-34 | the runtime name of a free function parses back to that function |
| StringParsers.ParseMethodName | pkg/parse/server/string_parsers.go:14-34 | the runtime name of a method, with or without a `-fm` style suffix, parses back to that method |
| StringParsers.ParseRuntimeName | pkg/parse/server/string_parsers.go:14-67 | round trip: parsing the runtime name of any nameable handler gives the handler back |
| StringParsers.IsFnAnonymousByQualifiedName | pkg/parse/server/string_parsers.go:10-12 | a name without '/' is anonymous; a named one has a last '/' inside the string |
| StringParsers.ParseDottedIdents | pkg/parse/server/string_parsers.go:36-52 | two segments give a free function, three a method; any other count is FatalInvalidFnName; other failures are panics; the package name is no longer than the input |
| StringParsers.ParseMethod | pkg/parse/server/string_parsers.go:54-67 | fails (a panic) iff the text is empty, or is parenthesised and shorter than three; the receiver is a pointer iff the text starts with '(' or ends with ')', and then the name drops three characters |
| TypeDesc.KindLists | pkg/parse/server/reflect.go:11-37 | primitive kinds are allowed field kinds; map keys are signed ints or string (no uint, no bool); no float, pointer, chan, func or interface kind is allowed |
| TypeDesc.ExtractFieldTypeIter | pkg/parse/server/reflect.go:53-68 | a resolved type always has an allowed field kind |
| TypeDesc.ExtractFieldTypeMeaning | pkg/parse/server/reflect.go:52-68 | `T` and `*T` resolve alike; `**T` is SinglePointerRequired; floats are NoFloat; other kinds are BadValueFromList |
| TypeDesc.ExtractFieldType | pkg/parse/server/reflect.go:52 | a resolved type is of an allowed field kind (so never a pointer) |
| Server.ParseApiSpecTag | pkg/parse/server/server.go:367-397 | an accepted `as` tag has an allowed role and a valid name; NoValue exactly when the tag is absent |
| Server.ApiSpecTagRoundTrip | pkg/parse/server/server.go:367-397 | `name,role` with a valid name and a known role gives that name and the upper-cased role |
| Server.ApiSpecTagShape | pkg/parse/server/server.go:367-397 | every accepted `as` tag has exactly two comma parts, the name and the role |
| Server.ParseJsonTag | pkg/parse/server/server.go:399-414 | success gives role JSON and a valid name; an absent `json` tag is an error |
| Server.JsonTagRoundTrip | pkg/parse/server/server.go:399-414 | only the first comma segment is the name; options after it are ignored |
| Server.ParseSerialization | pkg/parse/server/server.go:348-365 | `as` wins whenever present, even when malformed; `json` is read only when `as` is absent |
| Server.PathParameterTag | pkg/parse/server/server.go:348-397 | `as:"id,path"` marks a PATH parameter named id |
| Server.ParseValidation | pkg/parse/server/server.go:416-426 | no rules exactly when the `validate` tag is absent |
| Server.ValidationRoundTrip | pkg/parse/server/server.go:416-426 | the rules joined by commas give back the tag, and no rule holds a comma |
| Server.ValidationOfRules | pkg/parse/server/server.go:416-426 | a tag written as comma-joined rules gives exactly those rules, in order |
| Server.ValidNameHasNoComma | pkg/parse/server/validate.go:12-20 | a name the validator accepts holds no comma, so it cannot break the tag syntax |
| Server.ParseFieldTag | pkg/parse/server/server.go:322-342 | an embedded struct is refused (FatalStructIsAnon); otherwise the serialization is the tag's |
| Server.ParseBodyField | pkg/parse/server/server.go:230-252 | every description produced is well kinded |
| Server.ParseKind | pkg/parse/server/server.go:230-320 | the kind switch produces only well-kinded descriptions: an array has one element, a map has a "key" of an allowed key kind and a value, struct fields have serializations |
| Server.PointerShape | pkg/parse/server/server.go:230-252 | `*T` is described as T; `**T` is refused |
| Server.ArraySliceShape | pkg/parse/server/server.go:254-263 | arrays and slices of one element type get the same description, Array of that element |
| Server.MapShape | pkg/parse/server/server.go:298-320 | a disallowed key kind is refused; otherwise the map is [key{"key", key kind}, value] |
| Server.StructKind | pkg/parse/server/server.go:265-290 | a struct is described by its flattened fields |
| Server.StructShape | pkg/parse/server/server.go:265-290 | a struct succeeds iff every flattened field does; its sub-fields are those fields in order |
| Server.ParseField | pkg/parse/server/server.go:265-290 | a field keeps its name, has a serialization and is well kinded |
| Server.ParseFieldSteps | pkg/parse/server/server.go:265-290 | the tag error comes first, then the type error; otherwise the field is tag plus kind description |
| Server.ParseFields | pkg/parse/server/server.go:207-290 | every field produced has a serialization and is well kinded |
| Server.ParseFieldGroup | pkg/parse/server/server.go:207-228 | an embedded struct contributes its own fields, each with a serialization |
| Server.ParseFieldsFlatten | pkg/parse/server/server.go:207-290 | parsing the declared fields is parsing, in order, each field structFieldIter yields |
| Server.ParseFieldGroupFlatten | pkg/parse/server/server.go:207-228 | the same for one declared field |
| Server.FlattenHasNoEmbeddedStruct | pkg/parse/server/server.go:207-228 | structFieldIter never yields an embedded struct |
| Server.FieldGroupHasNoEmbeddedStruct | pkg/parse/server/server.go:207-228 | the same for one declared field |
| Server.FlattenWithoutEmbedding | pkg/parse/server/server.go:207-228 | fields declared without embedding come out unchanged, in declaration order |
| Server.FlattenAppend | pkg/parse/server/server.go:207-228 | flattening splices in place: it distributes over concatenation |
| Server.StructFieldIter | pkg/parse/server/server.go:207-228 | the loop yields the flattened fields of a struct, and nothing for any other type |
| Server.ParseStruct | pkg/parse/server/server.go:265-290 | the loop builds the struct description the kind switch specifies, stopping at the first error |
| Server.ParseFnSignature | pkg/parse/server/server.go:148-188 | the input count is checked first, then the output count; on success both records are structs |
| Server.FnSignatureMeaning | pkg/parse/server/server.go:148-188 | success iff the type is func(context, *struct) (*struct, error); the result is the two pointees |
| Server.DoublePointerRequest | pkg/parse/server/server.go:148-188 | a request record behind two pointers is refused as a bad type |
| Server.ParseFnIdents | pkg/parse/server/server.go:82-98 | a non-function is FatalInvalidParam; a function is named by its runtime name |
| Server.ParseData | pkg/parse/server/server.go:190-205 | a non-struct is refused; a record keeps the type name and package, and every field has a serialization |
| Server.DataFields | pkg/parse/server/server.go:190-205 | a record's fields are its parsed flattened fields, one for one |
| Server.ParseHandler | pkg/parse/server/server.go:103-146 | success means a valid handler signature; the endpoint keeps the method, chain, authorization, description and as many middleware entries |
| Server.AnonymousHandlerRefused | pkg/parse/server/server.go:103-146 | an anonymous function is never accepted as a handler |
| Server.ParseEndpoints | pkg/parse/server/server.go:57-68 | the loop gives every entry's endpoint in range order, or the first error |
| Server.ParsedEndpointsMeaning | pkg/parse/server/server.go:57-68 | one endpoint per entry, carrying the entry's method, the chain and its authorization |
| Server.ParseMiddleware | pkg/parse/server/server.go:70-80 | the loop gives every middleware in order, or the first error |
| Server.ParsePathString | pkg/parse/server/server.go:428-443 | Root/Static/Param become ROOT/STATIC/PARAM and the name is copied |
| Server.PathStringRenders | pkg/parse/server/server.go:428-443 | a segment renders as URL text iff the builder gave it one of its three kinds |
| Server.TraversePaths | pkg/parse/server/server.go:20-55 | the recursive loop over the children computes the walk the specification function defines |
| Server.Traverse | pkg/parse/server/server.go:20-55 | a parsed node keeps the route's path string, one endpoint per entry and one child per sub-route; its middleware extends the parent's |
| Server.TraverseAll | pkg/parse/server/server.go:40-47 | the children parse to one path per route |
| Server.TraverseAllIsMap | pkg/parse/server/server.go:40-47 | the children are walked in order, with the same chain and middleware |
| Server.TraverseMirrors | pkg/parse/server/server.go:20-55 | the output tree mirrors the input: chain = parent chain + own segment; middleware = parent's + own (a prefix of every descendant's); same children in the same order |
| Server.TraverseAllMirrors | pkg/parse/server/server.go:40-47 | as many output children as input children, each mirroring its input |
| Server.FirstFailingChildAborts | pkg/parse/server/server.go:40-47 | the first child whose walk fails decides the error of the whole walk |
| Repr.NoRootPathsMeaning | pkg/repr/http/iter.go:5-16 | exactly the non-ROOT entries are kept |
| Repr.NoRootPathsAppend | pkg/repr/http/iter.go:5-16 | the filter keeps the original order (it distributes over concatenation) |
| Repr.NoRootPathsOfRoots | pkg/repr/http/iter.go:5-16 | a chain of ROOT entries only filters to nothing |
| Repr.NoRootPaths | pkg/repr/http/iter.go:5-16 | the result holds no Root segment and is no longer than the input |
| Repr.ImportsMeaning | pkg/repr/http/iter.go:18-35 | the yielded imports are exactly the non-empty body and handler imports; response imports are never yielded |
| Repr.ImportsAppend | pkg/repr/http/iter.go:18-35 | endpoints are visited in order |
| Repr.Imports | pkg/repr/http/iter.go:18-35 | at most two imports per endpoint, and none is empty |
| Repr.ReceiversMeaning | pkg/repr/http/iter.go:37-49 | yields (receiver, handler import) for exactly the endpoints with a bound handler |
| Repr.ReceiversAppend | pkg/repr/http/iter.go:37-49 | endpoints are visited in order |
| Repr.Receivers | pkg/repr/http/iter.go:37-49 | at most one receiver per endpoint |
| Repr.MiddlewareImportsMeaning | pkg/gen/generate.go:117-119 | the middleware imports are the non-empty import paths of the middleware |
| Repr.PathTypeToURL | pkg/repr/http/format.go:9-19 | succeeds iff the type is one of the three known ones |
| Repr.PathToURL | pkg/repr/http/format.go:21-33 | the buffer loop returns the rendered URL or the first segment's error, with no partial text |
| Repr.SegmentRenders | pkg/repr/http/format.go:21-33 | each rendered segment appends '/' and its text to the buffer |
| Repr.SegmentFails | pkg/repr/http/format.go:21-33 | the first segment that does not render decides the error |
| Repr.AllSegmentsRender | pkg/repr/http/format.go:21-33 | when every segment renders, the URL is the concatenation of the parts |
| Repr.PathURL | pkg/repr/http/format.go:21-33 | a rendered URL has at least one character per non-root segment; it is empty iff every segment is a Root, and otherwise starts with '/' |
| Repr.PathURLAppend | pkg/repr/http/format.go:21-33 | rendering a concatenation is the concatenation of the renderings |
| Repr.PathURLRootsOnly | pkg/repr/http/format.go:21-33 | an empty or root-only chain renders as "" |
| Repr.PathURLFails | pkg/repr/http/format.go:9-33 | rendering fails iff some non-root segment has an unknown type, with BadValueFromList |
| Repr.SingleSegmentURL | pkg/repr/http/format.go:9-33 | a single non-root segment renders as '/' followed by its text |
| Repr.UsersByIdURL | pkg/repr/http/format.go:21-33 | Root / Static "users" / Param "id" renders as /users/:id |
| SymbolSet.IntToIdent | pkg/gen/set.go:57-64 | the loop gives the letter 'a' + x%26 followed by x/26 'z's (generate.go:74-81 is identical) |
| SymbolSet.Letters | pkg/gen/set.go:57-64 | the identifier has one letter plus one more per 26, and starts with a letter in 'a'..'z' |
| SymbolSet.ImportIdent | pkg/gen/set.go:53-55 | an import identifier starts with a letter, ends in 'i' and grows by one letter per 26 |
| SymbolSet.ReceiverIdent | pkg/gen/set.go:87-89 | a receiver identifier starts with a letter, ends in 'r' and grows by one letter per 26 |
| SymbolSet.LettersInjective | pkg/gen/set.go:57-64 | distinct indices give distinct identifiers |
| SymbolSet.LettersTable | pkg/gen/set.go:57-64 | 0→a, 1→b, 25→z, 26→az, 27→bz, 51→zz, 52→azz |
| SymbolSet.SuffixedInjective | pkg/gen/set.go:53-55 | a common suffix keeps identifiers distinct |
| SymbolSet.ImportAndReceiverIdentsDiffer | pkg/gen/set.go:53-89 | an import identifier (ends in i) never equals a receiver identifier (ends in r) |
| SymbolSet.StrLessIsStrictTotalOrder | pkg/gen/set.go:34 | byte-wise string order, as used by slices.Sort, is a strict total order |
| SymbolSet.KeyLessIsStrictTotalOrder | pkg/gen/set.go:120-128 | (path, name, pointer) with false before true is a strict total order |
| SymbolSet.KeyLess | pkg/gen/set.go:120-128 | a key is never less than itself: less implies different |
| SymbolSet.CollectKeys | pkg/gen/set.go:29-32 | the range over the map collects every key exactly once, in no particular order |
| SymbolSet.SortedKeys | pkg/gen/set.go:28-34 | sorting the collected keys gives each key once, strictly increasing |
| SymbolSet.SymbolSet.constructor | pkg/gen/set.go:24-26 | a new set is empty, with its order and suffix |
| SymbolSet.NewImportSet | pkg/gen/set.go:24-26 | an empty import set, ordered by path, suffix "i" |
| SymbolSet.NewReceiverSet | pkg/gen/set.go:84-86 | an empty receiver set, ordered by key, suffix "r" |
| SymbolSet.SymbolSet.Add | pkg/gen/set.go:15-17 | add only inserts: the key maps to "" and no other key is touched; adding twice is adding once |
| SymbolSet.SymbolSet.Get | pkg/gen/set.go:49-51 | the identifier of the key, "" when it was never added |
| SymbolSet.SymbolSet.Sort | pkg/gen/set.go:28-47 | the entries are each key exactly once, strictly increasing, the i-th named intToIdent(i)+suffix; the map gets the same names and keeps its keys |
| SymbolSet.AllocationUnique | pkg/gen/set.go:28-47 | the allocation depends only on the set of keys, never on the order of adds |
| SymbolSet.AllocationIdentsDistinct | pkg/gen/set.go:36-45 | within one allocation, distinct entries have distinct identifiers |
| Sorting.SortSorted | pkg/gen/set.go:34 | sorting distinct keys gives a strictly increasing permutation |
| Sorting.SortedUnique | pkg/gen/set.go:34 | two strictly increasing lists with the same elements are equal |
| Generate.LookupAllocation | pkg/gen/set.go:147-152 | after sort, a registered key finds the identifier of its index, an unregistered key "" |
| Generate.GetIsLookup | pkg/gen/set.go:49-51 | get on the sorted map agrees with the lookup in the returned entries |
| Generate.RegisterAll | pkg/gen/generate.go:114-122 | each range over an iterator adds exactly the yielded keys to the set |
| Generate.MakeNodeViews | pkg/gen/generate.go:124-131 | one view per endpoint in order, with IsGet iff GET and the node's middleware |
| Generate.GenerateEndpointsIter | pkg/gen/generate.go:109-138 | the views are the pre-order walk; the sets gain exactly the tree's imports and receiver keys |
| Generate.WalkChildren | pkg/gen/generate.go:133-136 | each child's views are appended in order; the sets gain the children's keys |
| Generate.ViewReceiversRegistered | pkg/gen/generate.go:109-138 | every bound handler of every view has its receiver key registered |
| Generate.ChildViewReceiversRegistered | pkg/gen/generate.go:133-136 | the same for a list of children |
| Generate.ViewImportsRegistered | pkg/gen/generate.go:109-138 | every non-empty body import of every view is registered |
| Generate.ChildViewImportsRegistered | pkg/gen/generate.go:133-136 | the same for a list of children |
| Generate.ViewsCount | pkg/gen/generate.go:109-138 | one view per endpoint of the tree |
| Generate.ChildViewsCount | pkg/gen/generate.go:133-136 | the same for a list of children |
| Generate.Views | pkg/gen/generate.go:109-138 | pre-order: a node's own views come first, before any child's |
| Generate.Generate | pkg/gen/generate.go:46-99 | succeeds iff every handler is bound; both sets are allocations of the tree's keys; every view is enriched in order; the setup imports are fiber and the validator |
| Generate.EnrichViews | pkg/gen/generate.go:60-72 | each view gets "app", its receiver's and body import's identifiers; a free-function handler panics |
| Generate.GeneratedIdentsResolve | pkg/gen/generate.go:60-72 | an endpoint's receiver identifier is recieverIdent of its receiver's slot (never ""), and a body import gets importIdent of its slot |
| Generate.HttpMethodToFiber | pkg/gen/generate.go:149-152 | the result has the method's length |
| Generate.HttpMethodToFiberIgnoringCase | pkg/gen/generate.go:149-152 | only case changes, and a leading letter becomes upper case (generate.go:280-283 is identical) |
| Generate.FiberMethodNames | pkg/gen/generate.go:149-152 | GET→Get, POST→Post, PUT→Put, PATCH→Patch, DELETE→Delete |
| Generate.FormatMiddleware | pkg/gen/generate.go:154-172 | index-aligned: a free function is importIdent.Name, a method is receiverIdent.Name |
| Generate.FreeMiddlewareRef | pkg/gen/generate.go:154-172 | a free-function middleware of a registered package is named through that package's allocated identifier |
| Generate.UnregisteredMiddlewareReceiver | pkg/gen/generate.go:154-172 | a method middleware whose receiver was never registered gets an empty prefix |
| Generate.ToParams | pkg/gen/generate.go:197-222 | the loop computes the parameter list the specification function defines |
| Generate.ParamsPanics | pkg/gen/generate.go:197-222 | toParams panics exactly when some field has no serialization |
| Generate.ParamsSelect | pkg/gen/generate.go:197-222 | every parameter comes from a field the role accepts, under the field's name, and every such field gives its parameter, with COOKIE renamed set-cookie |
| Generate.ParamsAppend | pkg/gen/generate.go:197-222 | the parameters keep field order: the parameters of `a + b` are those of `a` followed by those of `b` |
| Generate.ParsedDataHasParams | pkg/gen/generate.go:197-222 | records produced by the extractor never make toParams panic |
| Generate.JsonFieldsAreNotParams | pkg/gen/generate.go:174-195 | a JSON field is neither a request nor a response parameter |
| Generate.ParamExamples | pkg/gen/generate.go:174-222 | a PATH field is read with c.Params under its wire name; a response COOKIE is written with c.Set as set-cookie |
| Generate.ToRequestParams | pkg/gen/generate.go:174-184 | PATH, QUERY and HEADER fields map to c.Params, c.Query and c.Get |
| Generate.RequestFunction | pkg/gen/generate.go:174-184 | a request parameter is read by c.Params, c.Query or c.Get; JSON and COOKIE fields are not request parameters |
| Generate.ToRespParams | pkg/gen/generate.go:186-195 | HEADER and COOKIE fields map to c.Set |
| Generate.ResponseFunction | pkg/gen/generate.go:186-195 | only HEADER and COOKIE fields are response parameters, both set with c.Set |
| Generate.Params | pkg/gen/generate.go:197-222 | at most one parameter per field; a field without serialization is a nil-serialization panic |
| LegacyGenerate.InsertionSet.constructor | generate.go:20-22 | a new set is empty |
| LegacyGenerate.InsertionSet.Add | generate.go:28-33 | an existing key keeps its index; a new key gets len(s), so indices are dense in first-insertion order |
| LegacyGenerate.InsertionSet.Get | generate.go:24-26 | the key's index, 0 for an unknown key |
| LegacyGenerate.AddIdempotent | generate.go:28-33 | adding a value twice gives the map of adding it once; the value is then present, every earlier index is kept, and a new value gets the next index |
| LegacyGenerate.UnknownImportIsAi | generate.go:43-50 | an import never added gets "ai" |
| LegacyGenerate.KeyRoundTrip | generate.go:91-137 | a key of newline-free fields decodes to exactly the receiver and path it was built from |
| LegacyGenerate.KeyTextInjective | generate.go:91-93 | newline-free fields give distinct keys for distinct receivers |
| LegacyGenerate.NewlineInNamePanics | generate.go:114-137 | any newline in the receiver name or the import path makes decoding the key panic, for every index |
| LegacyGenerate.KeyNewlines | generate.go:91-93 | the key holds the newlines of the import path and the receiver name plus the two separators it adds |
| LegacyGenerate.DecodeIgnoresIndex | generate.go:114-137 | whether a key decodes does not depend on its index |
| LegacyGenerate.DecodeKey | generate.go:114-137 | a failure is a panic; a decoded key had three fields, gives the receiver identifier of its index, and takes the import path and name from the first two fields |
| LegacyGenerate.ParseBool | generate.go:114-137 | "true" and "false" parse to their values; accepted text has one to five characters |
| LegacyGenerate.AllImports | generate.go:61-72 | every import once, named importIdent of its index, in no particular order |
| LegacyGenerate.AllReceivers | generate.go:114-137 | succeeds iff every key decodes; a failure is a panic; yields every decoded entry |
| LegacyGenerate.AddAll | generate.go:196-204 | each range adds exactly the yielded keys, and every earlier index is kept |
| LegacyGenerate.NodeViewsResolve | generate.go:243-278 | after the node's adds, each bound view's import and receiver keys are in the sets |
| LegacyGenerate.TemplatedEndpoints | generate.go:243-278 | succeeds iff every handler of the node is bound; otherwise panics; each view gets its identifiers |
| LegacyGenerate.RenderedStable | generate.go:193-218 | identifiers rendered earlier stay correct as later adds extend the sets |
| LegacyGenerate.LegacyEndpointsIter | generate.go:193-218 | pre-order views; succeeds iff every handler is bound; earlier indices kept; the sets gain exactly the tree's keys |
| LegacyGenerate.LegacyChildren | generate.go:210-216 | each child in order; the first failing child aborts the walk |
| LegacyGenerate.NoEmptyImport | pkg/repr/http/iter.go:26-28 | no import registered by the walk is empty |
| LegacyGenerate.LegacyGenerate | generate.go:139-185 | a failure is a panic; success holds iff every handler is bound and every receiver key decodes; the final import and receiver maps hold exactly the tree's import paths and keys; each endpoint is rendered from its view with the identifiers of those maps; the receivers are exactly the decoded keys; the imports are exactly the map's paths with their identifiers |
| LegacyGenerate.FormatMiddleware | generate.go:285-303 | index-aligned: every middleware is importIdent.Name |
| LegacyGenerate.LegacyMiddlewareIgnoresReceiver | generate.go:285-303 | the receiver plays no part; an unregistered package gives "ai." + Name |
| LegacyGenerate.ToSimplifiedParams | generate.go:313-329 | the loop computes the PATH/QUERY parameter list; a field without serialization panics |
| LegacyGenerate.SimplifiedParamsKeepWireNames | generate.go:313-329 | every parameter keeps its field's wire name |
| LegacyGenerate.SimplifiedParamsFrom | generate.go:305-329 | every parameter comes from a PATH field (c.Params) or a QUERY field (c.Query) |
| LegacyGenerate.SimplifiedFunction | generate.go:305-311 | the simplified reader agrees with the request reader where it has one, uses only c.Params and c.Query, and has none for headers |
| OpenApiGenerator.BuildPathString | pkg/gen/openapi/generator.go:82-101 | a key segment always starts with '/', and is "/" or at least two characters |
| OpenApiGenerator.JoinPathChain | pkg/gen/openapi/generator.go:50-59 | joining a segment onto its parent's key gives the key of the longer chain |
| OpenApiGenerator.JoinPath | pkg/gen/openapi/generator.go:50-59 | joining a segment that starts with '/' onto an empty or rooted parent gives a rooted key |
| OpenApiGenerator.TopLevelKey | pkg/gen/openapi/generator.go:50-59 | the empty starting key acts as the root key "/" |
| OpenApiGenerator.UsersByIdKey | pkg/gen/openapi/generator.go:46-101 | root, "users", {id} are keyed "/", "/users", "/users/{id}" |
| OpenApiGenerator.IsRequired | pkg/gen/openapi/generator.go:276-283 | true iff some rule is exactly "required" |
| OpenApiGenerator.ScanRequired | pkg/gen/openapi/generator.go:276-283 | the early-return loop computes isRequired |
| OpenApiGenerator.IntegerKindsAgree | pkg/gen/openapi/generator.go:213-215 | the kinds written as integer are exactly the extractor's int and uint families |
| OpenApiGenerator.ConvertFieldToSchema | pkg/gen/openapi/generator.go:207-257 | the kind switch and the struct loop compute the field's schema |
| OpenApiGenerator.ExtractedFieldSchemas | pkg/gen/openapi/generator.go:207-257 | extracted fields get string, integer, boolean, array or object (never number); array items are the element's schema; maps have a properties container |
| OpenApiGenerator.FieldSchema | pkg/gen/openapi/generator.go:207-257 | the schema is an array iff the field is an array or slice, and exactly arrays carry items; a struct gives an object with properties |
| OpenApiGenerator.PropertiesOfMeaning | pkg/gen/openapi/generator.go:227-243 | one property per wire-or-field name, holding the schema of the last field of that name |
| OpenApiGenerator.RequiredOfAppend | pkg/gen/openapi/generator.go:227-243 | required follows field order |
| OpenApiGenerator.BodyStep | pkg/gen/openapi/generator.go:178-197 | PATH/QUERY fields are skipped; any other field adds its property and, when required, its name |
| OpenApiGenerator.ConvertDataToSchema | pkg/gen/openapi/generator.go:167-204 | the loop builds the object schema of the record's non-parameter fields |
| OpenApiGenerator.ParametersOfAppend | pkg/gen/openapi/generator.go:111-135 | parameters follow field order |
| OpenApiGenerator.ParametersMeaning | pkg/gen/openapi/generator.go:111-135 | each parameter comes from a PATH field (in path, required) or a QUERY field (in query, required iff validated so) |
| OpenApiGenerator.EndpointOperationShape | pkg/gen/openapi/generator.go:104-164 | a request body iff the method is not GET and some field is neither PATH nor QUERY; the only response is 200 "Successful response"; summary and operationId are the handler name |
| OpenApiGenerator.ConvertEndpoint | pkg/gen/openapi/generator.go:104-164 | the parameter loop and the body and response schemas build the endpoint's operation |
| OpenApiGenerator.SetOperationSlots | pkg/gen/openapi/generator.go:260-273 | exactly the slot of the upper-cased method is written; any other method changes nothing |
| OpenApiGenerator.SetOperation | pkg/gen/openapi/generator.go:260-273 | a known method, in any case, puts the operation in its slot; any other method leaves the item as it was |
| OpenApiGenerator.NodeItemKeepsSlots | pkg/gen/openapi/generator.go:62-69 | slots that no endpoint of the node names keep the operation already under the key |
| OpenApiGenerator.NodeItemLastWins | pkg/gen/openapi/generator.go:62-69 | the last endpoint of a method is the one in its slot |
| OpenApiGenerator.ConvertTreeKeys | pkg/gen/openapi/generator.go:46-79 | the table gains exactly the keys of the nodes with endpoints; entries under other keys are untouched |
| OpenApiGenerator.ConvertChildrenKeys | pkg/gen/openapi/generator.go:71-76 | the same for a list of children |
| OpenApiGenerator.PathTable.constructor | pkg/gen/openapi/generator.go:21 | the table starts empty |
| OpenApiGenerator.ConvertPaths | pkg/gen/openapi/generator.go:46-79 | the recursive walk writes into the shared table what the specification function defines |
| OpenApiGenerator.ConvertSubPaths | pkg/gen/openapi/generator.go:71-76 | each child is converted in order under the node's key |
| OpenApiGenerator.Generate | pkg/gen/openapi/generator.go:14-43 | openapi "3.1.0"; info as given; a server iff a URL is given; the paths from an empty table; no components |
| OpenApiGenerator.DocumentKeys | pkg/gen/openapi/generator.go:14-79 | the document's keys are exactly those of the nodes with endpoints |
| Http.Authz | pkg/http/entity.go:39-41 | an Authz option carrying the values |
| Http.Middleware | pkg/http/entity.go:43-45 | a Middleware option carrying the functions |
| Http.LastOptionWins | pkg/http/entity.go:83-94 | options apply in order: the last Authz and the last Middleware option win; handler and description untouched |
| Http.ApplyOptions | pkg/http/entity.go:83-94 | options never change the handler or the description; no options leave the endpoint as it was |
| Http.Path.NewAPI | pkg/http/entity.go:63-65 | a Root node with no endpoints, middleware or children |
| Http.Path.Node | pkg/http/entity.go:63-77 | the allocation shared by NewAPI, Static and Param: a fresh node with the given name and type and nothing registered |
| Http.Path.Static | pkg/http/entity.go:67-71 | exactly one fresh Static child is appended and returned; nothing else changes |
| Http.Path.Param | pkg/http/entity.go:73-77 | exactly one fresh Param child is appended and returned; nothing else changes |
| Http.Path.Use | pkg/http/entity.go:79-81 | middleware is appended in order |
| Http.Path.AddEndpoint | pkg/http/entity.go:83-94 | the method's endpoint is replaced by the one built from the options; other methods are unchanged |
| Http.Path.Get | pkg/http/entity.go:96-98 | registers under GET |
| Http.Path.Post | pkg/http/entity.go:100-102 | registers under POST |
| Http.Path.Put | pkg/http/entity.go:104-106 | registers under PUT |
| Http.Path.Patch | pkg/http/entity.go:108-110 | registers under PATCH |
| Http.Path.Delete | pkg/http/entity.go:112-114 | registers under DELETE |
| Http.BuildUsersById | pkg/http/entity.go:63-98 | a registration on a returned child is visible from the root, because children alias the parent's list |

## Left out

- Reflection and runtime lookups (`reflect.TypeOf`, `Implements`, `runtime.FuncForPC`, `typeName`) are replaced by the `TypeDesc.Type` descriptor. A function value carries the qualified name the runtime would report.
- Go map iteration order is not modelled. The builder's endpoint map is given as its entries in range order. `CollectKeys`, `AllImports` and `AllReceivers` promise no order.
- Template parsing and rendering, `sync.OnceValue` and the buffer pool are not modelled. The model stops at the data handed to the templates: the views, the sorted entries, the parameter lists and the middleware references.
- JSON encoding and writing to an `io.Writer` are not modelled, in either generator or in the OpenAPI generator.
- The console progress line of the older generator is I/O and is not modelled.
- Error messages and their wrapping are not modelled. Errors are datatype variants, and Go panics are `Panic` failures.
- apispec.go, the benchmark and the tests are outside the model. The test tables appear as example lemmas.
- Case mapping covers ASCII letters only. Go's `strings.ToUpper` and `ToLower` map all of Unicode.
- Recursive Go types (a struct that contains itself) have no finite descriptor in `TypeDesc.Type`. On such types the source recurses forever.
- A struct tag is modelled as a map from key to value. The parsing of Go's tag syntax is not modelled.
- The IR declarations in repr.go do not match their users. These members are declared here as assumptions:
  - `Endpoint.Description` and `Endpoint.Middleware`;
  - the serialization roles `HEADER` and `COOKIE`;
  - `ApiSpecSerializationTypes`, taken to be PATH, QUERY, HEADER and COOKIE;
  - `Middlewares.Imports`, taken to yield the non-empty middleware imports in order.
- The repository spells the identifier `Reciever`. The model writes `Receiver`.
- Early exit from an iterator, when `yield` returns false, is not modelled. Every consumer in the source drains its iterator.
- Server.ParseFnSignature: requires a function type. Its only caller checks the kind first, and `reflect` panics on other types.
- Generate.HttpMethodToFiber: requires a non-empty method. The source slices `x[:1]`, which panics on "", but every method the builder produces is one of the five constants.
- OpenApiGenerator.ConvertDataToSchema: takes a record, not a pointer to one. The branch for a nil record is not modelled, because the extractor always produces both records.
- OpenApiGenerator.ConvertPaths: returns no error, because no branch of the source produces one. The error return of convertPaths and Generate is therefore dropped.
- OpenApiGenerator.SetOperation: the write through `*PathItem` is modelled as returning the updated record. The pointer only ever targets convertPaths' local copy of the table entry.
- A nil slice and an empty slice print alike once encoded, so both are an empty `seq`. This covers the `parameters` and `required` fields that are omitted when empty.
- Behaviour of the code worth noting, which the model follows:
  - the OpenAPI title and version get no defaults;
  - a request record behind two pointers is a bad type, not a single-indirection error;
  - a view carries only its node's middleware;
  - only endpoint handlers register receivers.
