// The route-tree builder of pkg/http/entity.go: a mutable tree of path
// nodes on which handlers are registered per HTTP method, and the value
// form of that tree which the extractor reads.

module Http {
  import opened TypeDesc

  type Method = string

  const POST: Method := "POST"
  const GET: Method := "GET"
  const PUT: Method := "PUT"
  const PATCH: Method := "PATCH"
  const DELETE: Method := "DELETE"

  /** PathType: the kind of a path segment. */
  type PathType = int

  const PathRoot: PathType := 0
  const PathStatic: PathType := 1
  const PathParam: PathType := 2

  /** A registered endpoint: handler, description, authorizations, middleware. */
  datatype Endpoint = Endpoint(handler: FnValue, description: string, authz: seq<string>, middleware: seq<FnValue>)

  type OptionType = int

  const OptAuthz: OptionType := 0
  const OptMiddleware: OptionType := 1

  /** An endpoint option; only the payload named by `optType` is read. */
  datatype EndpointOpt = EndpointOpt(optType: OptionType, authz: seq<string>, middle: seq<FnValue>)

  function Authz(values: seq<string>): (o: EndpointOpt)
    ensures o.optType == OptAuthz && o.authz == values
  {
    EndpointOpt(OptAuthz, values, [])
  }

  function Middleware(values: seq<FnValue>): (o: EndpointOpt)
    ensures o.optType == OptMiddleware && o.middle == values
  {
    EndpointOpt(OptMiddleware, [], values)
  }

  /** One iteration of the option switch in addEndpoint. */
  function ApplyOption(ep: Endpoint, opt: EndpointOpt): Endpoint {
    if opt.optType == OptAuthz then ep.(authz := opt.authz)
    else if opt.optType == OptMiddleware then ep.(middleware := opt.middle)
    else ep
  }

  /** The options applied left to right. */
  function ApplyOptions(ep: Endpoint, opts: seq<EndpointOpt>): (r: Endpoint)
    ensures r.handler == ep.handler && r.description == ep.description
    ensures |opts| == 0 ==> r == ep
  {
    if |opts| == 0 then ep
    else ApplyOption(ApplyOptions(ep, opts[..|opts| - 1]), opts[|opts| - 1])
  }

  /**
   * The last option of a type decides that field; with no option of that
   * type the field keeps its initial value. Handler and description are
   * never changed by an option.
   */
  lemma {:induction false} LastOptionWins(ep: Endpoint, opts: seq<EndpointOpt>)
    ensures ApplyOptions(ep, opts).handler == ep.handler
    ensures ApplyOptions(ep, opts).description == ep.description
    ensures (forall k :: 0 <= k < |opts| ==> opts[k].optType != OptAuthz) ==>
              ApplyOptions(ep, opts).authz == ep.authz
    ensures forall k :: 0 <= k < |opts| && opts[k].optType == OptAuthz &&
                        (forall j :: k < j < |opts| ==> opts[j].optType != OptAuthz) ==>
              ApplyOptions(ep, opts).authz == opts[k].authz
    ensures (forall k :: 0 <= k < |opts| ==> opts[k].optType != OptMiddleware) ==>
              ApplyOptions(ep, opts).middleware == ep.middleware
    ensures forall k :: 0 <= k < |opts| && opts[k].optType == OptMiddleware &&
                        (forall j :: k < j < |opts| ==> opts[j].optType != OptMiddleware) ==>
              ApplyOptions(ep, opts).middleware == opts[k].middle
  {
    if |opts| > 0 {
      var init := opts[..|opts| - 1];
      LastOptionWins(ep, init);
      assert forall k :: 0 <= k < |init| ==> init[k] == opts[k];
    }
  }

  /**
   * A node of the route tree. Children are shared: the node returned by
   * Static or Param is the same object the parent lists, so handlers
   * registered on it are seen through the parent.
   */
  class Path {
    var name: string
    var pathType: PathType
    var endpoints: map<Method, Endpoint>
    var middleware: seq<FnValue>
    var subPaths: seq<Path>

    /** NewAPI: an empty Root node. */
    constructor NewAPI()
      ensures name == "" && pathType == PathRoot
      ensures endpoints == map[] && middleware == [] && subPaths == []
    {
      name := "";
      pathType := PathRoot;
      endpoints := map[];
      middleware := [];
      subPaths := [];
    }

    /** The node literal NewAPI, Static and Param each allocate: a named node with nothing registered. */
    constructor Node(name: string, pathType: PathType)
      ensures this.name == name && this.pathType == pathType
      ensures endpoints == map[] && middleware == [] && subPaths == []
    {
      this.name := name;
      this.pathType := pathType;
      endpoints := map[];
      middleware := [];
      subPaths := [];
    }

    /** Appends a new Static child and returns it. */
    method Static(childName: string) returns (child: Path)
      modifies this
      ensures fresh(child)
      ensures child.name == childName && child.pathType == PathStatic
      ensures child.endpoints == map[] && child.middleware == [] && child.subPaths == []
      ensures subPaths == old(subPaths) + [child]
      ensures name == old(name) && pathType == old(pathType)
      ensures endpoints == old(endpoints) && middleware == old(middleware)
    {
      child := new Path.Node(childName, PathStatic);
      subPaths := subPaths + [child];
    }

    /** Appends a new Param child and returns it. */
    method Param(childName: string) returns (child: Path)
      modifies this
      ensures fresh(child)
      ensures child.name == childName && child.pathType == PathParam
      ensures child.endpoints == map[] && child.middleware == [] && child.subPaths == []
      ensures subPaths == old(subPaths) + [child]
      ensures name == old(name) && pathType == old(pathType)
      ensures endpoints == old(endpoints) && middleware == old(middleware)
    {
      child := new Path.Node(childName, PathParam);
      subPaths := subPaths + [child];
    }

    /** Appends middleware after the node's existing middleware. */
    method Use(mw: seq<FnValue>)
      modifies this
      ensures middleware == old(middleware) + mw
      ensures name == old(name) && pathType == old(pathType)
      ensures endpoints == old(endpoints) && subPaths == old(subPaths)
    {
      middleware := middleware + mw;
    }

    /** Registers (or replaces) the endpoint of one method. */
    method AddEndpoint(m: Method, handler: FnValue, desc: string, opts: seq<EndpointOpt>)
      modifies this
      ensures endpoints == old(endpoints)[m := ApplyOptions(Endpoint(handler, desc, [], []), opts)]
      ensures name == old(name) && pathType == old(pathType)
      ensures middleware == old(middleware) && subPaths == old(subPaths)
    {
      var ep := Endpoint(handler, desc, [], []);
      var i := 0;
      while i < |opts|
        invariant 0 <= i <= |opts|
        invariant ep == ApplyOptions(Endpoint(handler, desc, [], []), opts[..i])
      {
        assert opts[..i + 1][..i] == opts[..i];
        var opt := opts[i];
        if opt.optType == OptAuthz {
          ep := ep.(authz := opt.authz);
        } else if opt.optType == OptMiddleware {
          ep := ep.(middleware := opt.middle);
        }
        i := i + 1;
      }
      assert opts[..i] == opts;
      endpoints := endpoints[m := ep];
    }

    method Get(handler: FnValue, desc: string, opts: seq<EndpointOpt>)
      modifies this
      ensures endpoints == old(endpoints)[GET := ApplyOptions(Endpoint(handler, desc, [], []), opts)]
      ensures name == old(name) && pathType == old(pathType)
      ensures middleware == old(middleware) && subPaths == old(subPaths)
    {
      AddEndpoint(GET, handler, desc, opts);
    }

    method Post(handler: FnValue, desc: string, opts: seq<EndpointOpt>)
      modifies this
      ensures endpoints == old(endpoints)[POST := ApplyOptions(Endpoint(handler, desc, [], []), opts)]
      ensures name == old(name) && pathType == old(pathType)
      ensures middleware == old(middleware) && subPaths == old(subPaths)
    {
      AddEndpoint(POST, handler, desc, opts);
    }

    method Put(handler: FnValue, desc: string, opts: seq<EndpointOpt>)
      modifies this
      ensures endpoints == old(endpoints)[PUT := ApplyOptions(Endpoint(handler, desc, [], []), opts)]
      ensures name == old(name) && pathType == old(pathType)
      ensures middleware == old(middleware) && subPaths == old(subPaths)
    {
      AddEndpoint(PUT, handler, desc, opts);
    }

    method Patch(handler: FnValue, desc: string, opts: seq<EndpointOpt>)
      modifies this
      ensures endpoints == old(endpoints)[PATCH := ApplyOptions(Endpoint(handler, desc, [], []), opts)]
      ensures name == old(name) && pathType == old(pathType)
      ensures middleware == old(middleware) && subPaths == old(subPaths)
    {
      AddEndpoint(PATCH, handler, desc, opts);
    }

    method Delete(handler: FnValue, desc: string, opts: seq<EndpointOpt>)
      modifies this
      ensures endpoints == old(endpoints)[DELETE := ApplyOptions(Endpoint(handler, desc, [], []), opts)]
      ensures name == old(name) && pathType == old(pathType)
      ensures middleware == old(middleware) && subPaths == old(subPaths)
    {
      AddEndpoint(DELETE, handler, desc, opts);
    }
  }

  /**
   * Building Root -> Static "users" -> Param "id" and registering on the
   * deepest node: the registration is visible from the root because the
   * returned children are the objects the parents hold.
   */
  method BuildUsersById(handler: FnValue) returns (api: Path)
    ensures fresh(api)
    ensures |api.subPaths| == 1 && api.subPaths[0].name == "users"
    ensures |api.subPaths[0].subPaths| == 1
    ensures api.subPaths[0].subPaths[0].pathType == PathParam
    ensures api.subPaths[0].subPaths[0].endpoints.Keys == {GET}
    ensures api.subPaths[0].subPaths[0].endpoints[GET].handler == handler
  {
    api := new Path.NewAPI();
    var users := api.Static("users");
    var id := users.Param("id");
    id.Get(handler, "get a user", []);
  }

  /**
   * The builder tree as a value: what the extractor reads. The endpoint map
   * is given as its entries in the order a range over the map visits them;
   * a node built with the `Path` methods has one entry per method, since
   * AddEndpoint replaces the entry of a method already present.
   */
  datatype Route = Route(
    name: string,
    pathType: PathType,
    endpoints: seq<(Method, Endpoint)>,
    middleware: seq<FnValue>,
    subPaths: seq<Route>)
}
