// The intermediate representation shared by both generators
// (pkg/repr/http): the datatypes of repr.go, the filtering iterators of
// iter.go and the URL renderer of format.go.

module Repr {
  import opened Results
  import opened Text
  import TypeDesc
  import Http

  // ---------------------------------------------------------------------
  // repr.go

  type PathType = string

  const PathROOT: PathType := "ROOT"
  const PathSTATIC: PathType := "STATIC"
  const PathPARAM: PathType := "PARAM"
  const ValidPathTypes: seq<PathType> := [PathROOT, PathSTATIC, PathPARAM]

  /** One segment of a route: its name and kind. */
  datatype PathString = PathString(name: string, pathType: PathType)

  /** The receiver of a bound method: its type name and whether it is `*T`. */
  datatype Receiver = Receiver(name: string, pointer: bool)

  /** A handler: function name, package path, and receiver (None for a free function). */
  datatype Handler = Handler(name: string, importPath: string, receiver: Option<Receiver>)

  /** Middleware is described exactly as a handler is. */
  type Middleware = Handler

  type SerializationType = string

  const SerializationJSON: SerializationType := "JSON"
  const SerializationQUERY: SerializationType := "QUERY"
  const SerializationPATH: SerializationType := "PATH"
  // Assumed: the generator and the extractor use these two roles, but the
  // declaration of the IR does not list them.
  const SerializationHEADER: SerializationType := "HEADER"
  const SerializationCOOKIE: SerializationType := "COOKIE"

  const ValidSerializationTypes: seq<SerializationType> :=
    [SerializationJSON, SerializationQUERY, SerializationPATH]

  // Assumed: the roles an `as` tag may name.
  const ApiSpecSerializationTypes: seq<SerializationType> :=
    [SerializationPATH, SerializationQUERY, SerializationHEADER, SerializationCOOKIE]

  /** The wire name of a field and where on the request it travels. */
  datatype Serialization = Serialization(name: string, serType: SerializationType)

  /** A field of a body or response record; recursive through subFields. */
  datatype StructField = StructField(
    name: string,
    kind: TypeDesc.Kind,
    serialization: Option<Serialization>,
    validation: seq<string>,
    subFields: seq<StructField>)

  /** A request body or response record: type name, package path, fields. */
  datatype Data = Data(name: string, importPath: string, fields: seq<StructField>)

  /**
   * An extracted endpoint. `description` and `middleware` are assumed
   * fields: the extractor sets them, the declaration does not list them.
   */
  datatype Endpoint = Endpoint(
    httpMethod: Http.Method,
    path: seq<PathString>,
    queryParams: seq<string>,
    urlParams: seq<string>,
    authorization: seq<string>,
    description: string,
    body: Data,
    response: Data,
    handler: Handler,
    middleware: seq<Middleware>)

  /** A node of the extracted tree, with the middleware accumulated from the root. */
  datatype Path = Path(
    pathString: PathString,
    endpoints: seq<Endpoint>,
    middleware: seq<Middleware>,
    subPaths: seq<Path>)

  // ---------------------------------------------------------------------
  // iter.go

  /** PathStrings.NoRootPaths: the entries that are not ROOT. */
  function NoRootPaths(ps: seq<PathString>): (r: seq<PathString>)
    ensures |r| <= |ps|
    ensures forall i :: 0 <= i < |r| ==> r[i].pathType != PathROOT
  {
    if |ps| == 0 then []
    else (if ps[0].pathType == PathROOT then [] else [ps[0]]) + NoRootPaths(ps[1..])
  }

  lemma {:induction false} NoRootPathsMeaning(ps: seq<PathString>)
    ensures forall p :: p in NoRootPaths(ps) <==> p in ps && p.pathType != PathROOT
  {
    if |ps| > 0 {
      NoRootPathsMeaning(ps[1..]);
      assert ps == [ps[0]] + ps[1..];
    }
  }

  /** The filter keeps the original order: it distributes over concatenation. */
  lemma {:induction false} NoRootPathsAppend(a: seq<PathString>, b: seq<PathString>)
    ensures NoRootPaths(a + b) == NoRootPaths(a) + NoRootPaths(b)
  {
    if |a| > 0 {
      assert (a + b)[1..] == a[1..] + b;
      NoRootPathsAppend(a[1..], b);
    } else {
      assert a + b == b;
    }
  }

  /** The imports one endpoint contributes: body, then handler, skipping "". */
  function EndpointImports(e: Endpoint): seq<string> {
    (if e.body.importPath == "" then [] else [e.body.importPath])
    + (if e.handler.importPath == "" then [] else [e.handler.importPath])
  }

  /** Endpoints.Imports. */
  function Imports(eps: seq<Endpoint>): (r: seq<string>)
    ensures |r| <= 2 * |eps|
    ensures forall i :: 0 <= i < |r| ==> r[i] != ""
  {
    if |eps| == 0 then [] else EndpointImports(eps[0]) + Imports(eps[1..])
  }

  /**
   * Exactly the non-empty body and handler imports are yielded; the
   * response import is not one of them unless it equals one of those.
   */
  lemma {:induction false} ImportsMeaning(eps: seq<Endpoint>)
    ensures forall s :: s in Imports(eps) <==>
              s != "" && exists e :: e in eps && (s == e.body.importPath || s == e.handler.importPath)
  {
    if |eps| > 0 {
      ImportsMeaning(eps[1..]);
      assert eps == [eps[0]] + eps[1..];
    }
  }

  lemma {:induction false} ImportsAppend(a: seq<Endpoint>, b: seq<Endpoint>)
    ensures Imports(a + b) == Imports(a) + Imports(b)
  {
    if |a| > 0 {
      assert (a + b)[1..] == a[1..] + b;
      ImportsAppend(a[1..], b);
    } else {
      assert a + b == b;
    }
  }

  /** Endpoints.Recievers: (receiver, handler import) of each bound handler. */
  function Receivers(eps: seq<Endpoint>): (r: seq<(Receiver, string)>)
    ensures |r| <= |eps|
  {
    if |eps| == 0 then []
    else
      (if eps[0].handler.receiver.Some? then [(eps[0].handler.receiver.value, eps[0].handler.importPath)] else [])
      + Receivers(eps[1..])
  }

  lemma {:induction false} ReceiversMeaning(eps: seq<Endpoint>)
    ensures forall x :: x in Receivers(eps) <==>
              exists e :: e in eps && e.handler.receiver == Some(x.0) && x.1 == e.handler.importPath
  {
    if |eps| > 0 {
      ReceiversMeaning(eps[1..]);
      assert eps == [eps[0]] + eps[1..];
    }
  }

  lemma {:induction false} ReceiversAppend(a: seq<Endpoint>, b: seq<Endpoint>)
    ensures Receivers(a + b) == Receivers(a) + Receivers(b)
  {
    if |a| > 0 {
      assert (a + b)[1..] == a[1..] + b;
      ReceiversAppend(a[1..], b);
    } else {
      assert a + b == b;
    }
  }

  /** Middlewares.Imports (assumed): the non-empty middleware imports in order. */
  function MiddlewareImports(ms: seq<Middleware>): seq<string> {
    if |ms| == 0 then []
    else (if ms[0].importPath == "" then [] else [ms[0].importPath]) + MiddlewareImports(ms[1..])
  }

  lemma {:induction false} MiddlewareImportsMeaning(ms: seq<Middleware>)
    ensures forall s :: s in MiddlewareImports(ms) <==> s != "" && exists m :: m in ms && m.importPath == s
  {
    if |ms| > 0 {
      MiddlewareImportsMeaning(ms[1..]);
      assert ms == [ms[0]] + ms[1..];
    }
  }

  // ---------------------------------------------------------------------
  // format.go

  /** PathTypeToURL: the URL text of one segment, an error for an unknown type. */
  function PathTypeToURL(p: PathString): (r: Result<string>)
    ensures r.Success? <==> p.pathType in ValidPathTypes
  {
    if p.pathType == PathROOT then Success("")
    else if p.pathType == PathPARAM then Success(":" + p.name)
    else if p.pathType == PathSTATIC then Success(p.name)
    else Failure(BadValueFromList("path type"))
  }

  /** What one loop iteration of PathToURL writes: '/' and the segment. */
  function SegmentURL(p: PathString): Result<string> {
    var s :- PathTypeToURL(p);
    Success("/" + s)
  }

  /** The URL PathToURL renders: every non-root segment behind a '/'. */
  function PathURL(ps: seq<PathString>): (r: Result<string>)
    ensures r.Success? ==> |r.value| >= |NoRootPaths(ps)|
    ensures r.Success? ==> (r.value == "" <==> |NoRootPaths(ps)| == 0)
    ensures r.Success? && r.value != "" ==> r.value[0] == '/'
  {
    var parts :- MapResult(NoRootPaths(ps), SegmentURL);
    SegmentsSlashed(NoRootPaths(ps), parts);
    ConcatSlashed(parts);
    Success(Concat(parts))
  }

  /** Every rendered segment starts with '/'. */
  lemma SegmentsSlashed(segments: seq<PathString>, parts: seq<string>)
    requires MapResult(segments, SegmentURL) == Success(parts)
    ensures forall i :: 0 <= i < |parts| ==> |parts[i]| > 0 && parts[i][0] == '/'
  {
    MapResultSuccess(segments, SegmentURL, parts);
    forall i | 0 <= i < |parts| ensures |parts[i]| > 0 && parts[i][0] == '/' {
      assert SegmentURL(segments[i]) == Success(parts[i]);
    }
  }

  /** Slash-led parts join to an empty text or one that starts with '/', with a '/' per part at least. */
  lemma {:induction false} ConcatSlashed(parts: seq<string>)
    requires forall i :: 0 <= i < |parts| ==> |parts[i]| > 0 && parts[i][0] == '/'
    ensures |Concat(parts)| >= |parts|
    ensures |parts| > 0 ==> Concat(parts)[0] == '/'
  {
    if |parts| > 0 {
      ConcatSlashed(parts[..|parts| - 1]);
    }
  }

  /** PathToURL: writes the segments into a buffer; on error returns no text. */
  method PathToURL(ps: seq<PathString>) returns (r: Result<string>)
    ensures r == PathURL(ps)
  {
    var segments := NoRootPaths(ps);
    var url := "";
    ghost var parts: seq<string> := [];
    var i := 0;
    while i < |segments|
      invariant 0 <= i <= |segments|
      invariant MapResult(segments[..i], SegmentURL) == Success(parts)
      invariant url == Concat(parts)
    {
      var s := PathTypeToURL(segments[i]);
      if s.Failure? {
        SegmentFails(ps, i, parts);
        return Failure(s.error);
      }
      SegmentRenders(segments, i, parts);
      url := url + "/" + s.value;
      parts := parts + ["/" + s.value];
      i := i + 1;
    }
    AllSegmentsRender(ps, parts);
    return Success(url);
  }

  /** One more rendered segment extends the parts and the buffer. */
  lemma SegmentRenders(segments: seq<PathString>, i: nat, parts: seq<string>)
    requires i < |segments| && MapResult(segments[..i], SegmentURL) == Success(parts)
    requires PathTypeToURL(segments[i]).Success?
    ensures MapResult(segments[..i + 1], SegmentURL) == Success(parts + ["/" + PathTypeToURL(segments[i]).value])
    ensures Concat(parts + ["/" + PathTypeToURL(segments[i]).value]) == Concat(parts) + "/" + PathTypeToURL(segments[i]).value
  {
    assert segments[..i + 1] == segments[..i] + [segments[i]];
    MapResultSnoc(segments[..i], segments[i], SegmentURL);
    assert (parts + ["/" + PathTypeToURL(segments[i]).value])[..|parts|] == parts;
  }

  /** A segment that does not render decides the error of the whole chain. */
  lemma SegmentFails(ps: seq<PathString>, i: nat, parts: seq<string>)
    requires i < |NoRootPaths(ps)| && MapResult(NoRootPaths(ps)[..i], SegmentURL) == Success(parts)
    requires PathTypeToURL(NoRootPaths(ps)[i]).Failure?
    ensures PathURL(ps) == Failure(PathTypeToURL(NoRootPaths(ps)[i]).error)
  {
    var segments := NoRootPaths(ps);
    MapResultSuccess(segments[..i], SegmentURL, parts);
    forall j | 0 <= j < i ensures SegmentURL(segments[j]).Success? {
      assert segments[..i][j] == segments[j];
    }
    MapResultFirstFailure(segments, SegmentURL, i);
  }

  /** When every segment renders, the URL is the text of all of them. */
  lemma AllSegmentsRender(ps: seq<PathString>, parts: seq<string>)
    requires MapResult(NoRootPaths(ps)[..|NoRootPaths(ps)|], SegmentURL) == Success(parts)
    ensures PathURL(ps) == Success(Concat(parts))
  {
    assert NoRootPaths(ps)[..|NoRootPaths(ps)|] == NoRootPaths(ps);
  }

  /** Rendering distributes over concatenation of the chains. */
  lemma PathURLAppend(a: seq<PathString>, b: seq<PathString>)
    requires PathURL(a).Success? && PathURL(b).Success?
    ensures PathURL(a + b) == Success(PathURL(a).value + PathURL(b).value)
  {
    NoRootPathsAppend(a, b);
    MapResultConcat(NoRootPaths(a), NoRootPaths(b), SegmentURL);
    var pa := MapResult(NoRootPaths(a), SegmentURL).value;
    var pb := MapResult(NoRootPaths(b), SegmentURL).value;
    ConcatAppend(pa, pb);
  }

  /** A chain of ROOT entries only (or none) renders as the empty string. */
  lemma PathURLRootsOnly(ps: seq<PathString>)
    requires forall p :: p in ps ==> p.pathType == PathROOT
    ensures PathURL(ps) == Success("")
  {
    NoRootPathsOfRoots(ps);
  }

  lemma {:induction false} NoRootPathsOfRoots(ps: seq<PathString>)
    requires forall p :: p in ps ==> p.pathType == PathROOT
    ensures NoRootPaths(ps) == []
  {
    if |ps| > 0 {
      assert ps[0] in ps;
      NoRootPathsOfRoots(ps[1..]);
    }
  }

  /** Rendering fails exactly when some non-root entry has an unknown type. */
  lemma PathURLFails(ps: seq<PathString>)
    ensures PathURL(ps).Failure? <==>
              exists p :: p in ps && p.pathType !in ValidPathTypes
    ensures PathURL(ps).Failure? ==> PathURL(ps).error == BadValueFromList("path type")
  {
    var segments := NoRootPaths(ps);
    NoRootPathsMeaning(ps);
    if PathURL(ps).Success? {
      var parts := MapResult(segments, SegmentURL).value;
      MapResultSuccess(segments, SegmentURL, parts);
      forall p | p in ps ensures p.pathType in ValidPathTypes {
        if p.pathType != PathROOT {
          var k :| 0 <= k < |segments| && segments[k] == p;
        }
      }
    } else {
      var k := FirstFailure(segments);
      MapResultFirstFailure(segments, SegmentURL, k);
    }
  }

  /** The index of the first segment that does not render. */
  function FirstFailure(segments: seq<PathString>): (k: nat)
    requires MapResult(segments, SegmentURL).Failure?
    ensures k < |segments| && SegmentURL(segments[k]).Failure?
    ensures forall i :: 0 <= i < k ==> SegmentURL(segments[i]).Success?
  {
    if SegmentURL(segments[0]).Failure? then 0 else 1 + FirstFailure(segments[1..])
  }

  /** A single non-root segment renders as '/' and its text. */
  lemma SingleSegmentURL(p: PathString)
    requires p.pathType != PathROOT && p.pathType in ValidPathTypes
    ensures PathURL([p]) == Success("/" + PathTypeToURL(p).value)
  {
    var text := "/" + PathTypeToURL(p).value;
    var none: seq<PathString> := [];
    assert [p][1..] == none;
    assert NoRootPaths([p]) == [p];
    assert MapResult(none, SegmentURL) == Success([]);
    assert SegmentURL(p) == Success(text);
    assert [text] + [] == [text];
    assert MapResult([p], SegmentURL) == Success([text]);
    assert [text][..0] == [];
    assert Concat([text]) == "" + text;
    assert "" + text == text;
  }

  /** Root / Static "users" / Param "id" renders as /users/:id. */
  lemma UsersByIdURL()
    ensures PathURL([PathString("", PathROOT), PathString("users", PathSTATIC), PathString("id", PathPARAM)])
            == Success("/users/:id")
  {
    var root, users, id := PathString("", PathROOT), PathString("users", PathSTATIC), PathString("id", PathPARAM);
    assert PathSTATIC != PathROOT && PathPARAM != PathROOT && PathPARAM != PathSTATIC by {
      assert PathSTATIC[0] != PathROOT[0] && PathPARAM[0] != PathROOT[0] && PathPARAM[0] != PathSTATIC[0];
    }
    var u, v := "/" + "users", "/" + (":" + "id");
    assert PathURL([users]) == Success(u) by {
      SingleSegmentURL(users);
      assert PathTypeToURL(users) == Success("users");
    }
    assert PathURL([id]) == Success(v) by {
      SingleSegmentURL(id);
      assert PathTypeToURL(id) == Success(":" + "id");
    }
    assert PathURL([root, users]) == Success(u) by {
      PathURLRootsOnly([root]);
      PathURLAppend([root], [users]);
      assert [root] + [users] == [root, users];
      assert "" + u == u;
    }
    PathURLAppend([root, users], [id]);
    assert [root, users] + [id] == [root, users, id];
    assert u + v == "/users/:id";
  }
}
