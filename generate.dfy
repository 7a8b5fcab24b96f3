// The Fiber server generator (pkg/gen/generate.go): a pre-order walk of the
// extracted tree that collects one view per endpoint while registering
// imports and receivers, the identifier allocation that follows, and the
// helpers the template calls (method names, middleware references, and the
// request/response parameter lists).

module Generate {
  import opened Results
  import opened Text
  import opened Sorting
  import opened SymbolSet
  import Repr
  import Http
  import TypeDesc

  /** endpointTemplateData: one endpoint as the template sees it. */
  datatype EndpointView = EndpointView(
    endpoint: Repr.Endpoint,
    isGet: bool,
    importIdent: string,
    receiverIdent: string,
    middleware: seq<Repr.Middleware>,
    appIdent: string)

  function Elems<T>(s: seq<T>): set<T> {
    set x | x in s
  }

  lemma ElemsSnoc<T>(s: seq<T>, x: T)
    ensures Elems(s + [x]) == Elems(s) + {x}
  {
    assert forall y :: y in s + [x] <==> y in s || y == x;
  }

  // ---------------------------------------------------------------------
  // The walk, stated on values

  /** The views of one node: its endpoints, in order, with the node's middleware. */
  function NodeViews(p: Repr.Path): (vs: seq<EndpointView>)
    ensures |vs| == |p.endpoints|
  {
    seq(|p.endpoints|, i requires 0 <= i < |p.endpoints| =>
      EndpointView(p.endpoints[i], p.endpoints[i].httpMethod == Http.GET, "", "", p.middleware, ""))
  }

  /** The views of a tree in pre-order: the node's own, then each child's in turn. */
  function Views(p: Repr.Path): (vs: seq<EndpointView>)
    ensures |vs| >= |p.endpoints| && vs[..|p.endpoints|] == NodeViews(p)
    decreases p, 1
  {
    NodeViews(p) + ChildViews(p.subPaths)
  }

  function ChildViews(ps: seq<Repr.Path>): seq<EndpointView>
    decreases ps, 0
  {
    if |ps| == 0 then [] else ChildViews(ps[..|ps| - 1]) + Views(ps[|ps| - 1])
  }

  /** The import paths one node registers: its endpoints' and its middleware's. */
  function NodeImports(p: Repr.Path): set<string> {
    Elems(Repr.Imports(p.endpoints)) + Elems(Repr.MiddlewareImports(p.middleware))
  }

  function TreeImports(p: Repr.Path): set<string>
    decreases p, 1
  {
    NodeImports(p) + ChildImports(p.subPaths)
  }

  function ChildImports(ps: seq<Repr.Path>): set<string>
    decreases ps, 0
  {
    if |ps| == 0 then {} else ChildImports(ps[..|ps| - 1]) + TreeImports(ps[|ps| - 1])
  }

  /** The receiver keys one node registers: those of its endpoints' handlers. */
  function ReceiverKeys(rs: seq<(Repr.Receiver, string)>): (keys: seq<ReceiverKey>)
    ensures |keys| == |rs|
  {
    seq(|rs|, i requires 0 <= i < |rs| => KeyOf(rs[i].0, rs[i].1))
  }

  function NodeReceivers(p: Repr.Path): set<ReceiverKey> {
    Elems(ReceiverKeys(Repr.Receivers(p.endpoints)))
  }

  function TreeReceivers(p: Repr.Path): set<ReceiverKey>
    decreases p, 1
  {
    NodeReceivers(p) + ChildReceivers(p.subPaths)
  }

  function ChildReceivers(ps: seq<Repr.Path>): set<ReceiverKey>
    decreases ps, 0
  {
    if |ps| == 0 then {} else ChildReceivers(ps[..|ps| - 1]) + TreeReceivers(ps[|ps| - 1])
  }

  // ---------------------------------------------------------------------
  // generateEndpointsIter

  /**
   * The walk itself: it registers the node's imports and receivers in the
   * two sets, makes the node's views, then recurses into each child and
   * appends the child's views.
   */
  /** One of the walk's ranges over an iterator: every key yielded is added. */
  method RegisterAll<K(==, !new)>(ks: seq<K>, s: SymbolSet<K>)
    modifies s
    ensures s.m.Keys == old(s.m.Keys) + Elems(ks)
  {
    for i := 0 to |ks|
      invariant s.m.Keys == old(s.m.Keys) + Elems(ks[..i])
    {
      s.Add(ks[i]);
      assert ks[..i + 1] == ks[..i] + [ks[i]];
      ElemsSnoc(ks[..i], ks[i]);
    }
    assert ks[..|ks|] == ks;
  }

  /** The views of the node's own endpoints, filled in index order. */
  method MakeNodeViews(p: Repr.Path) returns (views: seq<EndpointView>)
    ensures views == NodeViews(p)
  {
    views := [];
    for i := 0 to |p.endpoints|
      invariant views == NodeViews(p)[..i]
    {
      var e := p.endpoints[i];
      views := views + [EndpointView(e, e.httpMethod == Http.GET, "", "", p.middleware, "")];
    }
  }

  /**
   * The walk itself: it registers the node's imports and receivers in the
   * two sets, makes the node's views, then recurses into each child and
   * appends the child's views.
   */
  method GenerateEndpointsIter(p: Repr.Path, imports: SymbolSet<string>, receivers: SymbolSet<ReceiverKey>)
    returns (views: seq<EndpointView>)
    modifies imports, receivers
    ensures views == Views(p)
    ensures imports.m.Keys == old(imports.m.Keys) + TreeImports(p)
    ensures receivers.m.Keys == old(receivers.m.Keys) + TreeReceivers(p)
    decreases p, 1
  {
    RegisterAll(Repr.Imports(p.endpoints), imports);
    RegisterAll(Repr.MiddlewareImports(p.middleware), imports);
    RegisterAll(ReceiverKeys(Repr.Receivers(p.endpoints)), receivers);
    views := MakeNodeViews(p);
    var sub := WalkChildren(p.subPaths, imports, receivers);
    views := views + sub;
  }

  /** The range over the children: each walked in turn, its views appended. */
  method WalkChildren(ps: seq<Repr.Path>, imports: SymbolSet<string>, receivers: SymbolSet<ReceiverKey>)
    returns (views: seq<EndpointView>)
    modifies imports, receivers
    ensures views == ChildViews(ps)
    ensures imports.m.Keys == old(imports.m.Keys) + ChildImports(ps)
    ensures receivers.m.Keys == old(receivers.m.Keys) + ChildReceivers(ps)
    decreases ps, 0
  {
    views := [];
    for i := 0 to |ps|
      invariant views == ChildViews(ps[..i])
      invariant imports.m.Keys == old(imports.m.Keys) + ChildImports(ps[..i])
      invariant receivers.m.Keys == old(receivers.m.Keys) + ChildReceivers(ps[..i])
    {
      var sub := GenerateEndpointsIter(ps[i], imports, receivers);
      assert ps[..i + 1][..i] == ps[..i];
      views := views + sub;
    }
    assert ps[..|ps|] == ps;
  }

  /** Every endpoint view's handler receiver has been registered by the walk. */
  lemma {:induction false} ViewReceiversRegistered(p: Repr.Path)
    ensures forall v :: v in Views(p) && v.endpoint.handler.receiver.Some? ==>
              KeyOf(v.endpoint.handler.receiver.value, v.endpoint.handler.importPath) in TreeReceivers(p)
    decreases p, 1
  {
    Repr.ReceiversMeaning(p.endpoints);
    forall v | v in Views(p) && v.endpoint.handler.receiver.Some?
      ensures KeyOf(v.endpoint.handler.receiver.value, v.endpoint.handler.importPath) in TreeReceivers(p)
    {
      if v in NodeViews(p) {
        var i :| 0 <= i < |p.endpoints| && NodeViews(p)[i] == v;
        var x := (v.endpoint.handler.receiver.value, v.endpoint.handler.importPath);
        assert p.endpoints[i] in p.endpoints;
        assert x in Repr.Receivers(p.endpoints);
        var j :| 0 <= j < |Repr.Receivers(p.endpoints)| && Repr.Receivers(p.endpoints)[j] == x;
        assert ReceiverKeys(Repr.Receivers(p.endpoints))[j] == KeyOf(x.0, x.1);
      } else {
        ChildViewReceiversRegistered(p.subPaths);
      }
    }
  }

  lemma {:induction false} ChildViewReceiversRegistered(ps: seq<Repr.Path>)
    ensures forall v :: v in ChildViews(ps) && v.endpoint.handler.receiver.Some? ==>
              KeyOf(v.endpoint.handler.receiver.value, v.endpoint.handler.importPath) in ChildReceivers(ps)
    decreases ps, 0
  {
    if |ps| > 0 {
      ChildViewReceiversRegistered(ps[..|ps| - 1]);
      ViewReceiversRegistered(ps[|ps| - 1]);
    }
  }

  /** Every endpoint view's non-empty body import has been registered by the walk. */
  lemma {:induction false} ViewImportsRegistered(p: Repr.Path)
    ensures forall v :: v in Views(p) && v.endpoint.body.importPath != "" ==>
              v.endpoint.body.importPath in TreeImports(p)
    decreases p, 1
  {
    Repr.ImportsMeaning(p.endpoints);
    forall v | v in Views(p) && v.endpoint.body.importPath != ""
      ensures v.endpoint.body.importPath in TreeImports(p)
    {
      if v in NodeViews(p) {
        var i :| 0 <= i < |p.endpoints| && NodeViews(p)[i] == v;
        assert p.endpoints[i] in p.endpoints;
      } else {
        ChildViewImportsRegistered(p.subPaths);
      }
    }
  }

  lemma {:induction false} ChildViewImportsRegistered(ps: seq<Repr.Path>)
    ensures forall v :: v in ChildViews(ps) && v.endpoint.body.importPath != "" ==>
              v.endpoint.body.importPath in ChildImports(ps)
    decreases ps, 0
  {
    if |ps| > 0 {
      ChildViewImportsRegistered(ps[..|ps| - 1]);
      ViewImportsRegistered(ps[|ps| - 1]);
    }
  }

  /** A tree has as many views as it has endpoints. */
  function EndpointCount(p: Repr.Path): nat
    decreases p, 1
  {
    |p.endpoints| + ChildEndpointCount(p.subPaths)
  }

  function ChildEndpointCount(ps: seq<Repr.Path>): nat
    decreases ps, 0
  {
    if |ps| == 0 then 0 else ChildEndpointCount(ps[..|ps| - 1]) + EndpointCount(ps[|ps| - 1])
  }

  lemma {:induction false} ViewsCount(p: Repr.Path)
    ensures |Views(p)| == EndpointCount(p)
    decreases p, 1
  {
    ChildViewsCount(p.subPaths);
  }

  lemma {:induction false} ChildViewsCount(ps: seq<Repr.Path>)
    ensures |ChildViews(ps)| == ChildEndpointCount(ps)
    decreases ps, 0
  {
    if |ps| > 0 {
      ChildViewsCount(ps[..|ps| - 1]);
      ViewsCount(ps[|ps| - 1]);
    }
  }

  // ---------------------------------------------------------------------
  // Looking identifiers up in an allocation

  /** The identifier sort gave `k`, "" when `k` was never registered. */
  function Lookup<K(==)>(slots: seq<Slot<K>>, k: K): string {
    if |slots| == 0 then ""
    else if slots[0].key == k then slots[0].ident
    else Lookup(slots[1..], k)
  }

  lemma {:induction false} LookupFound<K>(slots: seq<Slot<K>>, i: nat)
    requires i < |slots|
    requires forall a, b :: 0 <= a < b < |slots| ==> slots[a].key != slots[b].key
    ensures Lookup(slots, slots[i].key) == slots[i].ident
  {
    if i > 0 {
      assert slots[0].key != slots[i].key;
      assert slots[1..][i - 1] == slots[i];
      LookupFound(slots[1..], i - 1);
    }
  }

  lemma {:induction false} LookupMissing<K>(slots: seq<Slot<K>>, k: K)
    requires forall i :: 0 <= i < |slots| ==> slots[i].key != k
    ensures Lookup(slots, k) == ""
  {
    if |slots| > 0 {
      assert forall i :: 0 <= i < |slots[1..]| ==> slots[1..][i] == slots[i + 1];
      LookupMissing(slots[1..], k);
    }
  }

  /**
   * Within an allocation, a registered key finds the identifier of its
   * index, and an unregistered key finds "".
   */
  lemma LookupAllocation<K(!new)>(keys: set<K>, slots: seq<Slot<K>>, less: (K, K) -> bool, suffix: string, k: K)
    requires IsStrictTotalOrder(less) && IsAllocation(keys, slots, less, suffix)
    ensures k in keys ==> exists i :: 0 <= i < |slots| && slots[i].key == k && Lookup(slots, k) == Letters(i) + suffix
    ensures k !in keys ==> Lookup(slots, k) == ""
  {
    var ks := SlotKeys(slots);
    forall a, b | 0 <= a < b < |slots| ensures slots[a].key != slots[b].key {
      assert ks[a] == slots[a].key && ks[b] == slots[b].key;
      StrictlySortedDistinct(ks, less, a, b);
    }
    if k in keys {
      var i :| 0 <= i < |ks| && ks[i] == k;
      LookupFound(slots, i);
    } else {
      forall i | 0 <= i < |slots| ensures slots[i].key != k {
        assert ks[i] == slots[i].key;
      }
      LookupMissing(slots, k);
    }
  }

  lemma StrictlySortedDistinct<K(!new)>(ks: seq<K>, less: (K, K) -> bool, a: nat, b: nat)
    requires IsStrictTotalOrder(less) && StrictlySorted(ks, less) && a < b < |ks|
    ensures ks[a] != ks[b]
  {
    assert less(ks[a], ks[b]);
  }

  /** After sort, get on the set and Lookup on the returned entries agree. */
  lemma GetIsLookup<K(!new)>(keys: set<K>, m: map<K, string>, slots: seq<Slot<K>>, less: (K, K) -> bool, suffix: string, k: K)
    requires IsStrictTotalOrder(less) && IsAllocation(keys, slots, less, suffix)
    requires m.Keys == keys
    requires forall i :: 0 <= i < |slots| ==> slots[i].key in m && m[slots[i].key] == slots[i].ident
    ensures (if k in m then m[k] else "") == Lookup(slots, k)
  {
    LookupAllocation(keys, slots, less, suffix, k);
  }

  // ---------------------------------------------------------------------
  // Generate

  const FiberImport: string := "github.com/gofiber/fiber/v2"

  /** The data handed to the "setup" template. */
  datatype SetupData = SetupData(
    receivers: seq<Slot<ReceiverKey>>,
    imports: seq<Slot<string>>,
    endpoints: seq<EndpointView>,
    validateImport: string,
    setupImports: seq<string>)

  /** A view given the app identifier and the identifiers of its receiver and body import. */
  function Enrich(v: EndpointView, imports: seq<Slot<string>>, receivers: seq<Slot<ReceiverKey>>): EndpointView
    requires v.endpoint.handler.receiver.Some?
  {
    v.(appIdent := "app",
       receiverIdent := Lookup(receivers, KeyOf(v.endpoint.handler.receiver.value, v.endpoint.handler.importPath)),
       importIdent := Lookup(imports, v.endpoint.body.importPath))
  }

  predicate AllBound(views: seq<EndpointView>) {
    forall v :: v in views ==> v.endpoint.handler.receiver.Some?
  }

  /**
   * Generate, up to the template: walk, sort both sets, and enrich every
   * view. Looking up the receiver of a free-function handler dereferences a
   * nil receiver, which panics.
   */
  method Generate(routes: Repr.Path, validateUrl: string) returns (r: Result<SetupData>)
    ensures r.Success? <==> AllBound(Views(routes))
    ensures r.Failure? ==> r.error.Panic?
    ensures r.Success? ==>
      IsAllocation(TreeImports(routes), r.value.imports, StrLess, "i") &&
      IsAllocation(TreeReceivers(routes), r.value.receivers, KeyLess, "r")
    ensures r.Success? ==>
      |r.value.endpoints| == |Views(routes)| &&
      forall i :: 0 <= i < |Views(routes)| ==>
        r.value.endpoints[i] == Enrich(Views(routes)[i], r.value.imports, r.value.receivers)
    ensures r.Success? ==>
      r.value.validateImport == validateUrl && r.value.setupImports == [FiberImport, validateUrl]
  {
    var imports := NewImportSet();
    var receivers := NewReceiverSet();
    var views := GenerateEndpointsIter(routes, imports, receivers);
    StrLessIsStrictTotalOrder();
    KeyLessIsStrictTotalOrder();
    var impSort := imports.Sort();
    var recvSort := receivers.Sort();
    var enriched := EnrichViews(views, imports, receivers, impSort, recvSort);
    if enriched.Failure? {
      return Failure(enriched.error);
    }
    r := Success(SetupData(recvSort, impSort, enriched.value, validateUrl, [FiberImport, validateUrl]));
  }

  /**
   * The loop of Generate over the views: each is given its identifiers by
   * get on the sorted sets; a free-function handler panics.
   */
  method EnrichViews(views: seq<EndpointView>, imports: SymbolSet<string>, receivers: SymbolSet<ReceiverKey>,
                     impSort: seq<Slot<string>>, recvSort: seq<Slot<ReceiverKey>>)
    returns (r: Result<seq<EndpointView>>)
    requires IsStrictTotalOrder(StrLess) && IsStrictTotalOrder(KeyLess)
    requires IsAllocation(imports.m.Keys, impSort, StrLess, "i")
    requires forall i :: 0 <= i < |impSort| ==> impSort[i].key in imports.m && imports.m[impSort[i].key] == impSort[i].ident
    requires IsAllocation(receivers.m.Keys, recvSort, KeyLess, "r")
    requires forall i :: 0 <= i < |recvSort| ==> recvSort[i].key in receivers.m && receivers.m[recvSort[i].key] == recvSort[i].ident
    ensures r.Success? <==> AllBound(views)
    ensures r.Failure? ==> r.error.Panic?
    ensures r.Success? ==> |r.value| == |views|
    ensures r.Success? ==> forall i :: 0 <= i < |views| ==> r.value[i] == Enrich(views[i], impSort, recvSort)
  {
    var enriched := [];
    for i := 0 to |views|
      invariant |enriched| == i
      invariant forall j :: 0 <= j < i ==> views[j].endpoint.handler.receiver.Some?
      invariant forall j :: 0 <= j < i ==> enriched[j] == Enrich(views[j], impSort, recvSort)
    {
      var e := views[i];
      if e.endpoint.handler.receiver.None? {
        assert e in views;
        return Failure(Panic("nil receiver"));
      }
      var recvKey := KeyOf(e.endpoint.handler.receiver.value, e.endpoint.handler.importPath);
      var recvIdent := receivers.Get(recvKey);
      GetIsLookup(receivers.m.Keys, receivers.m, recvSort, KeyLess, "r", recvKey);
      var impIdent := imports.Get(e.endpoint.body.importPath);
      GetIsLookup(imports.m.Keys, imports.m, impSort, StrLess, "i", e.endpoint.body.importPath);
      enriched := enriched + [e.(appIdent := "app", receiverIdent := recvIdent, importIdent := impIdent)];
    }
    r := Success(enriched);
  }

  /**
   * On success every endpoint's receiver identifier is the one its receiver
   * was allocated (never ""), and a non-empty body import finds its own.
   */
  lemma GeneratedIdentsResolve(routes: Repr.Path, data: SetupData, i: nat)
    requires IsAllocation(TreeImports(routes), data.imports, StrLess, "i")
    requires IsAllocation(TreeReceivers(routes), data.receivers, KeyLess, "r")
    requires |data.endpoints| == |Views(routes)| && i < |Views(routes)|
    requires AllBound(Views(routes))
    requires data.endpoints[i] == Enrich(Views(routes)[i], data.imports, data.receivers)
    ensures exists j :: 0 <= j < |data.receivers| &&
              data.receivers[j].key == KeyOf(data.endpoints[i].endpoint.handler.receiver.value, data.endpoints[i].endpoint.handler.importPath) &&
              data.endpoints[i].receiverIdent == ReceiverIdent(j)
    ensures data.endpoints[i].endpoint.body.importPath != "" ==>
              exists j :: 0 <= j < |data.imports| &&
                data.imports[j].key == data.endpoints[i].endpoint.body.importPath &&
                data.endpoints[i].importIdent == ImportIdent(j)
  {
    var v := Views(routes)[i];
    assert v in Views(routes);
    StrLessIsStrictTotalOrder();
    KeyLessIsStrictTotalOrder();
    ViewReceiversRegistered(routes);
    ViewImportsRegistered(routes);
    LookupAllocation(TreeReceivers(routes), data.receivers, KeyLess, "r",
      KeyOf(v.endpoint.handler.receiver.value, v.endpoint.handler.importPath));
    LookupAllocation(TreeImports(routes), data.imports, StrLess, "i", v.endpoint.body.importPath);
  }

  // ---------------------------------------------------------------------
  // httpMethodToFiber

  /** The Fiber method name: the first letter upper-cased, the rest lower-cased. */
  function HttpMethodToFiber(m: Http.Method): (r: string)
    requires |m| >= 1
    ensures |r| == |m|
  {
    ToUpper(m[..1]) + ToLower(m[1..])
  }

  /** Only case changes: the name compares equal to the method ignoring case. */
  lemma HttpMethodToFiberIgnoringCase(m: Http.Method)
    requires |m| >= 1
    ensures ToLower(HttpMethodToFiber(m)) == ToLower(m)
    ensures 'a' <= m[0] <= 'z' || 'A' <= m[0] <= 'Z' ==> 'A' <= HttpMethodToFiber(m)[0] <= 'Z'
  {
    var r := HttpMethodToFiber(m);
    forall i | 0 <= i < |m| ensures LowerChar(r[i]) == LowerChar(m[i]) {
      if i == 0 {
        assert r[0] == UpperChar(m[0]);
      } else {
        assert r[i] == LowerChar(m[i]);
      }
    }
  }

  lemma FiberMethodNames()
    ensures HttpMethodToFiber(Http.GET) == "Get"
    ensures HttpMethodToFiber(Http.POST) == "Post"
    ensures HttpMethodToFiber(Http.PUT) == "Put"
    ensures HttpMethodToFiber(Http.PATCH) == "Patch"
    ensures HttpMethodToFiber(Http.DELETE) == "Delete"
  {
  }

  // ---------------------------------------------------------------------
  // formatMiddleware

  function MapGet<K>(m: map<K, string>, k: K): string {
    if k in m then m[k] else ""
  }

  /**
   * How one middleware is referenced: a free function through the
   * identifier of its package, a method through the identifier of its
   * receiver.
   */
  function MiddlewareRef(mw: Repr.Middleware, imports: map<string, string>, receivers: map<ReceiverKey, string>): string {
    (if mw.receiver.None? then MapGet(imports, mw.importPath)
     else MapGet(receivers, KeyOf(mw.receiver.value, mw.importPath)))
    + "." + mw.name
  }

  method FormatMiddleware(mws: seq<Repr.Middleware>, imports: SymbolSet<string>, receivers: SymbolSet<ReceiverKey>)
    returns (formatted: seq<string>)
    ensures |formatted| == |mws|
    ensures forall i :: 0 <= i < |mws| ==> formatted[i] == MiddlewareRef(mws[i], imports.m, receivers.m)
  {
    formatted := [];
    for i := 0 to |mws|
      invariant |formatted| == i
      invariant forall j :: 0 <= j < i ==> formatted[j] == MiddlewareRef(mws[j], imports.m, receivers.m)
    {
      var mw := mws[i];
      var prefix;
      if mw.receiver.None? {
        prefix := imports.Get(mw.importPath);
      } else {
        prefix := receivers.Get(KeyOf(mw.receiver.value, mw.importPath));
      }
      formatted := formatted + [prefix + "." + mw.name];
    }
  }

  /**
   * A free-function middleware whose package was allocated index `j` is
   * written `<letters>i.<name>`.
   */
  lemma FreeMiddlewareRef(mw: Repr.Middleware, slots: seq<Slot<string>>, imports: map<string, string>, receivers: map<ReceiverKey, string>)
    requires mw.receiver.None? && mw.importPath in imports.Keys
    requires IsAllocation(imports.Keys, slots, StrLess, "i")
    requires forall i :: 0 <= i < |slots| ==> slots[i].key in imports && imports[slots[i].key] == slots[i].ident
    ensures exists j :: 0 <= j < |slots| && slots[j].key == mw.importPath &&
              MiddlewareRef(mw, imports, receivers) == ImportIdent(j) + "." + mw.name
  {
    StrLessIsStrictTotalOrder();
    LookupAllocation(imports.Keys, slots, StrLess, "i", mw.importPath);
    GetIsLookup(imports.Keys, imports, slots, StrLess, "i", mw.importPath);
  }

  /**
   * The walk registers receivers of endpoint handlers only: a method used
   * as middleware whose receiver no handler shares is written with an
   * empty qualifier.
   */
  lemma UnregisteredMiddlewareReceiver(mw: Repr.Middleware, imports: map<string, string>, receivers: map<ReceiverKey, string>)
    requires mw.receiver.Some? && KeyOf(mw.receiver.value, mw.importPath) !in receivers
    ensures MiddlewareRef(mw, imports, receivers) == "." + mw.name
  {
  }

  // ---------------------------------------------------------------------
  // toParams

  /** A parameter the template reads from or writes to the request context. */
  datatype Param = Param(name: string, serialization: string, functionName: string)

  /** serializationToRequestFiber */
  function RequestFunction(t: Repr.SerializationType): (r: Option<string>)
    ensures r.Some? ==> r.value in ["c.Params", "c.Query", "c.Get"]
    ensures t == Repr.SerializationJSON || t == Repr.SerializationCOOKIE ==> r.None?
  {
    if t == Repr.SerializationPATH then Some("c.Params")
    else if t == Repr.SerializationQUERY then Some("c.Query")
    else if t == Repr.SerializationHEADER then Some("c.Get")
    else None
  }

  /** serializationToRespFiber */
  function ResponseFunction(t: Repr.SerializationType): (r: Option<string>)
    ensures r.Some? ==> r.value == "c.Set"
    ensures t != Repr.SerializationHEADER && t != Repr.SerializationCOOKIE ==> r.None?
  {
    if t == Repr.SerializationHEADER || t == Repr.SerializationCOOKIE then Some("c.Set") else None
  }

  /** The parameter of one field with a serialization the role function accepts. */
  function ParamOf(f: Repr.StructField, fnName: string): Param
    requires f.serialization.Some?
  {
    Param(f.name,
          if f.serialization.value.serType == Repr.SerializationCOOKIE then "set-cookie" else f.serialization.value.name,
          fnName)
  }

  /**
   * The parameters of a field list: fields whose role has no function are
   * skipped; a field without serialization is dereferenced as nil.
   */
  function Params(fields: seq<Repr.StructField>, role: Repr.SerializationType -> Option<string>): (r: Result<seq<Param>>)
    ensures r.Success? ==> |r.value| <= |fields|
    ensures r.Failure? ==> r.error == Panic("nil serialization")
  {
    if |fields| == 0 then Success([])
    else
      var init :- Params(fields[..|fields| - 1], role);
      var f := fields[|fields| - 1];
      if f.serialization.None? then Failure(Panic("nil serialization"))
      else match role(f.serialization.value.serType) {
        case None => Success(init)
        case Some(fnName) => Success(init + [ParamOf(f, fnName)])
      }
  }

  /** toParams panics exactly when some field has no serialization. */
  lemma {:induction false} ParamsPanics(fields: seq<Repr.StructField>, role: Repr.SerializationType -> Option<string>)
    ensures Params(fields, role).Failure? <==> exists f :: f in fields && f.serialization.None?
    ensures Params(fields, role).Failure? ==> Params(fields, role).error == Panic("nil serialization")
  {
    if |fields| > 0 {
      var init := fields[..|fields| - 1];
      ParamsPanics(init, role);
      assert fields == init + [fields[|fields| - 1]];
    }
  }

  /**
   * The parameters, in field order, are exactly the fields whose role has a
   * function, each carrying that function.
   */
  lemma {:induction false} ParamsSelect(fields: seq<Repr.StructField>, role: Repr.SerializationType -> Option<string>)
    requires Params(fields, role).Success?
    ensures forall p :: p in Params(fields, role).value ==>
              exists f :: f in fields && f.serialization.Some? && f.name == p.name &&
                role(f.serialization.value.serType) == Some(p.functionName)
    ensures forall f :: f in fields && f.serialization.Some? && role(f.serialization.value.serType).Some? ==>
              ParamOf(f, role(f.serialization.value.serType).value) in Params(fields, role).value
  {
    if |fields| > 0 {
      var init := fields[..|fields| - 1];
      ParamsSelect(init, role);
      assert fields == init + [fields[|fields| - 1]];
    }
  }

  /** The parameters keep field order: the list of a concatenation is the concatenation of the lists. */
  lemma {:induction false} ParamsAppend(a: seq<Repr.StructField>, b: seq<Repr.StructField>, role: Repr.SerializationType -> Option<string>)
    requires Params(a + b, role).Success?
    ensures Params(a, role).Success? && Params(b, role).Success?
    ensures Params(a + b, role).value == Params(a, role).value + Params(b, role).value
    decreases |b|
  {
    if |b| == 0 {
      assert a + b == a;
    } else {
      var init := b[..|b| - 1];
      assert (a + b)[..|a + b| - 1] == a + init;
      assert (a + b)[|a + b| - 1] == b[|b| - 1];
      ParamsAppend(a, init, role);
    }
  }

  /** Records produced by the extractor always have serializations: no panic. */
  lemma ParsedDataHasParams(data: Repr.Data, role: Repr.SerializationType -> Option<string>)
    requires forall i :: 0 <= i < |data.fields| ==> data.fields[i].serialization.Some?
    ensures Params(data.fields, role).Success?
  {
    ParamsPanics(data.fields, role);
  }

  /** A JSON body field is never a request or response parameter. */
  lemma JsonFieldsAreNotParams(f: Repr.StructField)
    requires f.serialization.Some? && f.serialization.value.serType == Repr.SerializationJSON
    ensures Params([f], RequestFunction) == Success([])
    ensures Params([f], ResponseFunction) == Success([])
  {
    assert [f][..0] == [];
  }

  /** A path field is read with c.Params under its wire name; a response cookie is written as set-cookie. */
  lemma ParamExamples(name: string, wire: string)
    ensures var f := Repr.StructField(name, TypeDesc.Int, Some(Repr.Serialization(wire, Repr.SerializationPATH)), [], []);
            Params([f], RequestFunction) == Success([Param(name, wire, "c.Params")])
    ensures var f := Repr.StructField(name, TypeDesc.String, Some(Repr.Serialization(wire, Repr.SerializationCOOKIE)), [], []);
            Params([f], ResponseFunction) == Success([Param(name, "set-cookie", "c.Set")]) &&
            Params([f], RequestFunction) == Success([])
  {
    var f := Repr.StructField(name, TypeDesc.Int, Some(Repr.Serialization(wire, Repr.SerializationPATH)), [], []);
    assert [f][..0] == [];
    assert RequestFunction(Repr.SerializationPATH) == Some("c.Params");
    assert ParamOf(f, "c.Params") == Param(name, wire, "c.Params");
    assert Params([f], RequestFunction) == Success([] + [ParamOf(f, "c.Params")]);
    assert [] + [ParamOf(f, "c.Params")] == [Param(name, wire, "c.Params")];
    var g := Repr.StructField(name, TypeDesc.String, Some(Repr.Serialization(wire, Repr.SerializationCOOKIE)), [], []);
    assert [g][..0] == [];
    assert ResponseFunction(Repr.SerializationCOOKIE) == Some("c.Set");
    assert ParamOf(g, "c.Set") == Param(name, "set-cookie", "c.Set");
    assert Params([g], ResponseFunction) == Success([] + [ParamOf(g, "c.Set")]);
    assert [] + [ParamOf(g, "c.Set")] == [Param(name, "set-cookie", "c.Set")];
  }

  /** toParams: the loop over the fields. */
  method ToParams(role: Repr.SerializationType -> Option<string>, data: Repr.Data) returns (r: Result<seq<Param>>)
    ensures r == Params(data.fields, role)
  {
    var params := [];
    for i := 0 to |data.fields|
      invariant Params(data.fields[..i], role) == Success(params)
    {
      var f := data.fields[i];
      assert data.fields[..i + 1][..i] == data.fields[..i];
      if f.serialization.None? {
        assert f in data.fields;
        ParamsPanics(data.fields, role);
        return Failure(Panic("nil serialization"));
      }
      var fnName := role(f.serialization.value.serType);
      if fnName.None? {
        continue;
      }
      var serializationName := f.serialization.value.name;
      if f.serialization.value.serType == Repr.SerializationCOOKIE {
        serializationName := "set-cookie";
      }
      params := params + [Param(f.name, serializationName, fnName.value)];
    }
    assert data.fields[..|data.fields|] == data.fields;
    r := Success(params);
  }

  method ToRequestParams(data: Repr.Data) returns (r: Result<seq<Param>>)
    ensures r == Params(data.fields, RequestFunction)
  {
    r := ToParams(RequestFunction, data);
  }

  method ToRespParams(data: Repr.Data) returns (r: Result<seq<Param>>)
    ensures r == Params(data.fields, ResponseFunction)
  {
    r := ToParams(ResponseFunction, data);
  }
}
