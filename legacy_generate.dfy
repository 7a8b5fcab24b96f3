// The older Fiber generator (generate.go at the repository root): the same
// pre-order walk, but identifiers are handed out in first-insertion order
// while walking, receivers are keyed by a newline-joined text, and the
// middleware and parameter helpers are simpler.

module LegacyGenerate {
  import opened Results
  import opened Text
  import opened Sorting
  import SymbolSet
  import Generate
  import Repr
  import Http

  // ---------------------------------------------------------------------
  // set

  /**
   * set[T]: a map from key to the index it was first added with. The ghost
   * `order` records the keys in first-insertion order.
   */
  class InsertionSet<T(==, !new)> {
    var s: map<T, nat>
    ghost var order: seq<T>

    /** Indices are dense, 0 to n - 1, in first-insertion order. */
    ghost predicate Valid()
      reads this
    {
      Distinct(order) && |s| == |order| &&
      (forall k :: k in s <==> k in order) &&
      forall i :: 0 <= i < |order| ==> order[i] in s && s[order[i]] == i
    }

    constructor ()
      ensures Valid() && s == map[] && order == []
    {
      s := map[];
      order := [];
    }

    /** add: a new key gets the next index, an existing key keeps its own. */
    method Add(x: T)
      requires Valid()
      modifies this
      ensures Valid()
      ensures s == AddMap(old(s), x)
      ensures order == if x in old(s) then old(order) else old(order) + [x]
    {
      if x in s {
        return;
      }
      s := s[x := |s|];
      order := order + [x];
    }

    /** get: the index of a key, 0 for a key never added. */
    method Get(x: T) returns (n: nat)
      ensures n == IndexOf(s, x)
    {
      n := if x in s then s[x] else 0;
    }
  }

  /** The map after add: a new key gets the next index, an existing key keeps its own. */
  function AddMap<T>(s: map<T, nat>, x: T): map<T, nat> {
    if x in s then s else s[x := |s|]
  }

  function IndexOf<T>(m: map<T, nat>, x: T): nat {
    if x in m then m[x] else 0
  }

  /** Every key keeps its index: what add guarantees to every earlier lookup. */
  ghost predicate Extends<T(!new)>(before: map<T, nat>, after: map<T, nat>) {
    forall k :: k in before ==> k in after && after[k] == before[k]
  }

  /** add twice is add once; the key is then present and no earlier index moved. */
  lemma AddIdempotent<T(!new)>(s: map<T, nat>, x: T)
    ensures AddMap(AddMap(s, x), x) == AddMap(s, x)
    ensures x in AddMap(s, x) && Extends(s, AddMap(s, x))
    ensures x !in s ==> AddMap(s, x)[x] == |s|
  {
  }

  /** importSet.get: an import never added gets index 0, so "ai". */
  lemma UnknownImportIsAi(m: map<string, nat>, imp: string)
    requires imp !in m
    ensures SymbolSet.ImportIdent(IndexOf(m, imp)) == "ai"
  {
    SymbolSet.LettersTable();
  }

  // ---------------------------------------------------------------------
  // recieverSet keys

  function BoolText(b: bool): string {
    if b then "true" else "false"
  }

  /** recieverSet.key: import path, receiver name and pointer-ness joined by newlines. */
  function KeyText(recv: Repr.Receiver, importPath: string): string {
    importPath + "\n" + recv.name + "\n" + BoolText(recv.pointer)
  }

  /** strconv.ParseBool: the spellings Go accepts, None for any other text. */
  function ParseBool(s: string): (r: Option<bool>)
    ensures s == BoolText(true) ==> r == Some(true)
    ensures s == BoolText(false) ==> r == Some(false)
    ensures r.Some? ==> 1 <= |s| <= 5
  {
    if s in ["1", "t", "T", "TRUE", "true", "True"] then Some(true)
    else if s in ["0", "f", "F", "FALSE", "false", "False"] then Some(false)
    else None
  }

  /** One receiver as `all` yields it. */
  datatype ReceiverEntry = ReceiverEntry(receiver: Repr.Receiver, importPath: string, ident: string)

  /** One import as `all` yields it. */
  datatype Importer = Importer(importPath: string, ident: string)

  /** The decoding in recieverSet.all: a key that does not split back into three fields or a bool panics. */
  function DecodeKey(k: string, index: nat): (r: Result<ReceiverEntry>)
    ensures r.Failure? ==> r.error.Panic?
    ensures r.Success? ==> |Split(k, '\n')| == 3 && r.value.ident == SymbolSet.ReceiverIdent(index)
    ensures r.Success? ==> r.value.importPath == Split(k, '\n')[0] && r.value.receiver.name == Split(k, '\n')[1]
  {
    var parts := Split(k, '\n');
    if |parts| != 3 then Failure(Panic("invalid key"))
    else match ParseBool(parts[2]) {
      case None => Failure(Panic("invalid key"))
      case Some(b) => Success(ReceiverEntry(Repr.Receiver(parts[1], b), parts[0], SymbolSet.ReceiverIdent(index)))
    }
  }

  /** A key of newline-free fields decodes to exactly the receiver and path it was built from. */
  lemma KeyRoundTrip(recv: Repr.Receiver, importPath: string, index: nat)
    requires '\n' !in importPath && '\n' !in recv.name
    ensures DecodeKey(KeyText(recv, importPath), index) ==
              Success(ReceiverEntry(recv, importPath, SymbolSet.ReceiverIdent(index)))
  {
    var pieces := [importPath, recv.name, BoolText(recv.pointer)];
    assert Join(pieces[2..], '\n') == BoolText(recv.pointer);
    assert Join(pieces[1..], '\n') == recv.name + "\n" + BoolText(recv.pointer);
    assert Join(pieces, '\n') == KeyText(recv, importPath);
    SplitJoin(pieces, '\n');
  }

  /** Newline-free fields give distinct keys for distinct receivers. */
  lemma KeyTextInjective(r1: Repr.Receiver, p1: string, r2: Repr.Receiver, p2: string)
    requires '\n' !in p1 && '\n' !in r1.name && '\n' !in p2 && '\n' !in r2.name
    requires KeyText(r1, p1) == KeyText(r2, p2)
    ensures r1 == r2 && p1 == p2
  {
    KeyRoundTrip(r1, p1, 0);
    KeyRoundTrip(r2, p2, 0);
  }

  /** A newline in the receiver name or the import path splits the key into more than three fields: `all` panics. */
  lemma NewlineInNamePanics(recv: Repr.Receiver, importPath: string, index: nat)
    requires '\n' in recv.name || '\n' in importPath
    ensures DecodeKey(KeyText(recv, importPath), index).Failure?
  {
    var k := KeyText(recv, importPath);
    SplitCount(k, '\n');
    KeyNewlines(recv, importPath);
    assert multiset(recv.name)['\n'] + multiset(importPath)['\n'] > 0;
    assert |Split(k, '\n')| > 3;
  }

  /** The key holds the newlines of its two text fields and the two it adds. */
  lemma KeyNewlines(recv: Repr.Receiver, importPath: string)
    ensures multiset(KeyText(recv, importPath))['\n'] == multiset(importPath)['\n'] + multiset(recv.name)['\n'] + 2
  {
    var b := BoolText(recv.pointer);
    assert multiset(b)['\n'] == 0;
    assert multiset(KeyText(recv, importPath)) ==
             multiset(importPath) + multiset{'\n'} + multiset(recv.name) + multiset{'\n'} + multiset(b);
  }

  /** importSet.all: every import once, with the identifier of its index, in no particular order. */
  method AllImports(imports: InsertionSet<string>) returns (entries: seq<Importer>)
    ensures forall k :: k in imports.s <==> exists e :: e in entries && e.importPath == k
    ensures forall e :: e in entries ==> e.importPath in imports.s && e.ident == SymbolSet.ImportIdent(imports.s[e.importPath])
    ensures forall i, j :: 0 <= i < j < |entries| ==> entries[i].importPath != entries[j].importPath
  {
    var keys := SymbolSet.CollectKeys(imports.s);
    entries := [];
    for i := 0 to |keys|
      invariant |entries| == i
      invariant forall j :: 0 <= j < i ==> entries[j] == Importer(keys[j], SymbolSet.ImportIdent(imports.s[keys[j]]))
    {
      entries := entries + [Importer(keys[i], SymbolSet.ImportIdent(imports.s[keys[i]]))];
    }
    forall k | k in imports.s ensures exists e :: e in entries && e.importPath == k {
      var j :| 0 <= j < |keys| && keys[j] == k;
      assert entries[j] in entries;
    }
  }

  /**
   * recieverSet.all: every key decoded, in no particular order; a key that
   * does not decode panics.
   */
  method AllReceivers(receivers: InsertionSet<string>) returns (r: Result<seq<ReceiverEntry>>)
    ensures r.Success? <==> forall k :: k in receivers.s ==> DecodeKey(k, receivers.s[k]).Success?
    ensures r.Failure? ==> r.error.Panic?
    ensures r.Success? ==> forall e :: e in r.value <==>
              exists k :: k in receivers.s && DecodeKey(k, receivers.s[k]) == Success(e)
  {
    var keys := SymbolSet.CollectKeys(receivers.s);
    var entries := [];
    for i := 0 to |keys|
      invariant |entries| == i
      invariant forall j :: 0 <= j < i ==> DecodeKey(keys[j], receivers.s[keys[j]]) == Success(entries[j])
    {
      var decoded := DecodeKey(keys[i], receivers.s[keys[i]]);
      if decoded.Failure? {
        return Failure(decoded.error);
      }
      entries := entries + [decoded.value];
    }
    forall k | k in receivers.s ensures DecodeKey(k, receivers.s[k]).Success? {
      var j :| 0 <= j < |keys| && keys[j] == k;
    }
    forall e | exists k :: k in receivers.s && DecodeKey(k, receivers.s[k]) == Success(e)
      ensures e in entries
    {
      var k :| k in receivers.s && DecodeKey(k, receivers.s[k]) == Success(e);
      var j :| 0 <= j < |keys| && keys[j] == k;
    }
    r := Success(entries);
  }

  // ---------------------------------------------------------------------
  // generateEndpointsIter

  /** The per-endpoint data of the endpoint template. */
  datatype LegacyView = LegacyView(
    endpoint: Repr.Endpoint,
    isGet: bool,
    importIdent: string,
    receiverIdent: string,
    middleware: seq<Repr.Middleware>)

  function ReceiverKeyOf(v: Generate.EndpointView): string
    requires v.endpoint.handler.receiver.Some?
  {
    KeyText(v.endpoint.handler.receiver.value, v.endpoint.handler.importPath)
  }

  /** A view with the identifiers the two sets give it. */
  function LegacyEnrich(v: Generate.EndpointView, imports: map<string, nat>, receivers: map<string, nat>): LegacyView
    requires v.endpoint.handler.receiver.Some?
  {
    LegacyView(v.endpoint, v.isGet,
      SymbolSet.ImportIdent(IndexOf(imports, v.endpoint.body.importPath)),
      SymbolSet.ReceiverIdent(IndexOf(receivers, ReceiverKeyOf(v))),
      v.middleware)
  }

  /** The view's handler is a method and its keys are registered, so later adds cannot change its identifiers. */
  ghost predicate Resolved(v: Generate.EndpointView, imports: map<string, nat>, receivers: map<string, nat>) {
    v.endpoint.handler.receiver.Some? &&
    (v.endpoint.body.importPath == "" || v.endpoint.body.importPath in imports) &&
    ReceiverKeyOf(v) in receivers
  }

  /** `out` is `views` enriched with the sets' identifiers, each of them resolved. */
  ghost predicate Rendered(out: seq<LegacyView>, views: seq<Generate.EndpointView>, imports: map<string, nat>, receivers: map<string, nat>) {
    |out| == |views| &&
    forall i :: 0 <= i < |views| ==>
      Resolved(views[i], imports, receivers) && out[i] == LegacyEnrich(views[i], imports, receivers)
  }

  lemma RenderedStable(out: seq<LegacyView>, views: seq<Generate.EndpointView>,
                       im: map<string, nat>, rm: map<string, nat>, im2: map<string, nat>, rm2: map<string, nat>)
    requires Rendered(out, views, im, rm)
    requires Extends(im, im2) && Extends(rm, rm2) && "" !in im2
    ensures Rendered(out, views, im2, rm2)
  {
  }

  lemma RenderedConcat(a: seq<LegacyView>, va: seq<Generate.EndpointView>, b: seq<LegacyView>, vb: seq<Generate.EndpointView>,
                       im: map<string, nat>, rm: map<string, nat>)
    requires Rendered(a, va, im, rm) && Rendered(b, vb, im, rm)
    ensures Rendered(a + b, va + vb, im, rm)
  {
  }

  /** The receiver keys of a node, as texts. */
  function KeyTexts(rs: seq<(Repr.Receiver, string)>): (keys: seq<string>)
    ensures |keys| == |rs|
  {
    seq(|rs|, i requires 0 <= i < |rs| => KeyText(rs[i].0, rs[i].1))
  }

  /** What one add does to the map: the key is present and every earlier key kept. */
  lemma AddedKey<T(!new)>(before: map<T, nat>, after: map<T, nat>, x: T)
    requires after == AddMap(before, x)
    ensures Extends(before, after) && after.Keys == before.Keys + {x}
  {
  }

  lemma ExtendsTransitive<T(!new)>(a: map<T, nat>, b: map<T, nat>, c: map<T, nat>)
    requires Extends(a, b) && Extends(b, c)
    ensures Extends(a, c)
  {
  }

  /** One of the walk's ranges over an iterator: every key yielded is added. */
  method AddAll(ks: seq<string>, set_: InsertionSet<string>)
    requires set_.Valid()
    modifies set_
    ensures set_.Valid()
    ensures Extends(old(set_.s), set_.s)
    ensures forall k :: k in set_.s <==> k in old(set_.s) || k in ks
  {
    ghost var start := set_.s;
    for i := 0 to |ks|
      invariant set_.Valid()
      invariant Extends(start, set_.s)
      invariant forall k :: k in set_.s <==> k in start || k in ks[..i]
    {
      assert ks[..i + 1] == ks[..i] + [ks[i]];
      ghost var before := set_.s;
      set_.Add(ks[i]);
      AddedKey(before, set_.s, ks[i]);
      ExtendsTransitive(start, before, set_.s);
    }
    assert ks[..|ks|] == ks;
  }

  /** The node's imports and receiver keys are in the sets: its views resolve. */
  lemma NodeViewsResolve(p: Repr.Path, im: map<string, nat>, rm: map<string, nat>, i: nat)
    requires i < |p.endpoints| && p.endpoints[i].handler.receiver.Some?
    requires Generate.Elems(Repr.Imports(p.endpoints)) <= im.Keys
    requires Generate.Elems(KeyTexts(Repr.Receivers(p.endpoints))) <= rm.Keys
    ensures Resolved(Generate.NodeViews(p)[i], im, rm)
  {
    var e := p.endpoints[i];
    assert e in p.endpoints;
    Repr.ImportsMeaning(p.endpoints);
    Repr.ReceiversMeaning(p.endpoints);
    var x := (e.handler.receiver.value, e.handler.importPath);
    assert x in Repr.Receivers(p.endpoints);
    var j :| 0 <= j < |Repr.Receivers(p.endpoints)| && Repr.Receivers(p.endpoints)[j] == x;
    assert KeyTexts(Repr.Receivers(p.endpoints))[j] == KeyText(x.0, x.1);
  }

  /** templatedEndpoints: the node's endpoints in order; a free-function handler is dereferenced as nil. */
  method TemplatedEndpoints(p: Repr.Path, imports: InsertionSet<string>, receivers: InsertionSet<string>)
    returns (r: Result<seq<LegacyView>>)
    requires Generate.Elems(Repr.Imports(p.endpoints)) <= imports.s.Keys
    requires Generate.Elems(KeyTexts(Repr.Receivers(p.endpoints))) <= receivers.s.Keys
    ensures r.Success? <==> Generate.AllBound(Generate.NodeViews(p))
    ensures r.Failure? ==> r.error.Panic?
    ensures r.Success? ==> Rendered(r.value, Generate.NodeViews(p), imports.s, receivers.s)
  {
    var out := [];
    for i := 0 to |p.endpoints|
      invariant Rendered(out, Generate.NodeViews(p)[..i], imports.s, receivers.s)
    {
      assert Generate.NodeViews(p)[..i + 1] == Generate.NodeViews(p)[..i] + [Generate.NodeViews(p)[i]];
      var e := p.endpoints[i];
      if e.handler.receiver.None? {
        assert Generate.NodeViews(p)[i] in Generate.NodeViews(p);
        return Failure(Panic("nil receiver"));
      }
      var impIndex := imports.Get(e.body.importPath);
      var recvIndex := receivers.Get(KeyText(e.handler.receiver.value, e.handler.importPath));
      NodeViewsResolve(p, imports.s, receivers.s, i);
      out := out + [LegacyView(e, e.httpMethod == Http.GET, SymbolSet.ImportIdent(impIndex),
                               SymbolSet.ReceiverIdent(recvIndex), p.middleware)];
    }
    assert Generate.NodeViews(p)[..|p.endpoints|] == Generate.NodeViews(p);
    r := Success(out);
  }

  /** The receiver keys of a tree, as texts. */
  function TreeReceiverTexts(p: Repr.Path): set<string>
    decreases p, 1
  {
    Generate.Elems(KeyTexts(Repr.Receivers(p.endpoints))) + ChildReceiverTexts(p.subPaths)
  }

  function ChildReceiverTexts(ps: seq<Repr.Path>): set<string>
    decreases ps, 0
  {
    if |ps| == 0 then {} else ChildReceiverTexts(ps[..|ps| - 1]) + TreeReceiverTexts(ps[|ps| - 1])
  }

  lemma {:induction false} NoEmptyImport(p: Repr.Path)
    ensures "" !in Generate.TreeImports(p)
    decreases p, 1
  {
    Repr.ImportsMeaning(p.endpoints);
    Repr.MiddlewareImportsMeaning(p.middleware);
    NoEmptyChildImport(p.subPaths);
  }

  lemma {:induction false} NoEmptyChildImport(ps: seq<Repr.Path>)
    ensures "" !in Generate.ChildImports(ps)
    decreases ps, 0
  {
    if |ps| > 0 {
      NoEmptyChildImport(ps[..|ps| - 1]);
      NoEmptyImport(ps[|ps| - 1]);
    }
  }

  /** A view of a child is a view of the children's list. */
  lemma {:induction false} ChildViewsContain(ps: seq<Repr.Path>, i: nat)
    requires i < |ps|
    ensures forall v :: v in Generate.Views(ps[i]) ==> v in Generate.ChildViews(ps)
    decreases |ps|
  {
    if i < |ps| - 1 {
      ChildViewsContain(ps[..|ps| - 1], i);
    }
  }

  /**
   * generateEndpointsIter: register the node's imports, receivers and
   * middleware imports (in that order), render the node's endpoints with
   * the identifiers known so far, then walk each child. Because add never
   * moves a key, those identifiers are the final ones.
   */
  method LegacyEndpointsIter(p: Repr.Path, imports: InsertionSet<string>, receivers: InsertionSet<string>)
    returns (r: Result<seq<LegacyView>>)
    requires imports != receivers && imports.Valid() && receivers.Valid() && "" !in imports.s
    modifies imports, receivers
    ensures imports.Valid() && receivers.Valid() && "" !in imports.s
    ensures Extends(old(imports.s), imports.s) && Extends(old(receivers.s), receivers.s)
    ensures r.Success? <==> Generate.AllBound(Generate.Views(p))
    ensures r.Failure? ==> r.error.Panic?
    ensures r.Success? ==> Rendered(r.value, Generate.Views(p), imports.s, receivers.s)
    ensures r.Success? ==> forall k :: k in imports.s <==> k in old(imports.s) || k in Generate.TreeImports(p)
    ensures r.Success? ==> forall k :: k in receivers.s <==> k in old(receivers.s) || k in TreeReceiverTexts(p)
    decreases p, 1
  {
    NoEmptyImport(p);
    AddAll(Repr.Imports(p.endpoints), imports);
    AddAll(KeyTexts(Repr.Receivers(p.endpoints)), receivers);
    AddAll(Repr.MiddlewareImports(p.middleware), imports);
    var node := TemplatedEndpoints(p, imports, receivers);
    if node.Failure? {
      return Failure(node.error);
    }
    ghost var im := imports.s;
    ghost var rm := receivers.s;
    var children := LegacyChildren(p.subPaths, imports, receivers);
    if children.Failure? {
      return Failure(children.error);
    }
    RenderedStable(node.value, Generate.NodeViews(p), im, rm, imports.s, receivers.s);
    RenderedConcat(node.value, Generate.NodeViews(p), children.value, Generate.ChildViews(p.subPaths), imports.s, receivers.s);
    r := Success(node.value + children.value);
  }

  /** The range over the children; the first failing child aborts the walk. */
  method LegacyChildren(ps: seq<Repr.Path>, imports: InsertionSet<string>, receivers: InsertionSet<string>)
    returns (r: Result<seq<LegacyView>>)
    requires imports != receivers && imports.Valid() && receivers.Valid() && "" !in imports.s
    modifies imports, receivers
    ensures imports.Valid() && receivers.Valid() && "" !in imports.s
    ensures Extends(old(imports.s), imports.s) && Extends(old(receivers.s), receivers.s)
    ensures r.Success? <==> Generate.AllBound(Generate.ChildViews(ps))
    ensures r.Failure? ==> r.error.Panic?
    ensures r.Success? ==> Rendered(r.value, Generate.ChildViews(ps), imports.s, receivers.s)
    ensures r.Success? ==> forall k :: k in imports.s <==> k in old(imports.s) || k in Generate.ChildImports(ps)
    ensures r.Success? ==> forall k :: k in receivers.s <==> k in old(receivers.s) || k in ChildReceiverTexts(ps)
    decreases ps, 0
  {
    var acc := [];
    for i := 0 to |ps|
      invariant imports.Valid() && receivers.Valid() && "" !in imports.s
      invariant Extends(old(imports.s), imports.s) && Extends(old(receivers.s), receivers.s)
      invariant Rendered(acc, Generate.ChildViews(ps[..i]), imports.s, receivers.s)
      invariant forall k :: k in imports.s <==> k in old(imports.s) || k in Generate.ChildImports(ps[..i])
      invariant forall k :: k in receivers.s <==> k in old(receivers.s) || k in ChildReceiverTexts(ps[..i])
    {
      ghost var im := imports.s;
      ghost var rm := receivers.s;
      var sub := LegacyEndpointsIter(ps[i], imports, receivers);
      if sub.Failure? {
        ChildViewsContain(ps, i);
        return Failure(sub.error);
      }
      assert ps[..i + 1][..i] == ps[..i];
      RenderedStable(acc, Generate.ChildViews(ps[..i]), im, rm, imports.s, receivers.s);
      RenderedConcat(acc, Generate.ChildViews(ps[..i]), sub.value, Generate.Views(ps[i]), imports.s, receivers.s);
      acc := acc + sub.value;
    }
    assert ps[..|ps|] == ps;
    r := Success(acc);
  }

  // ---------------------------------------------------------------------
  // generate

  /** The data handed to the register template. */
  datatype RegisterData = RegisterData(
    receivers: seq<ReceiverEntry>,
    imports: seq<Importer>,
    endpoints: seq<LegacyView>,
    validateImport: string)

  /**
   * generate, up to the template: walk with two fresh sets, then list both
   * sets through `all`.
   */
  method LegacyGenerate(routes: Repr.Path, validateUrl: string)
    returns (r: Result<RegisterData>, ghost im: map<string, nat>, ghost rm: map<string, nat>)
    ensures r.Failure? ==> r.error.Panic?
    ensures r.Success? <==> Generate.AllBound(Generate.Views(routes)) &&
                            forall k :: k in TreeReceiverTexts(routes) ==> DecodeKey(k, 0).Success?
    ensures r.Success? ==> r.value.validateImport == validateUrl
    ensures r.Success? ==> forall k :: k in im <==> k in Generate.TreeImports(routes)
    ensures r.Success? ==> forall k :: k in rm <==> k in TreeReceiverTexts(routes)
    ensures r.Success? ==> Rendered(r.value.endpoints, Generate.Views(routes), im, rm)
    ensures r.Success? ==> forall e :: e in r.value.receivers <==>
              exists k :: k in rm && DecodeKey(k, rm[k]) == Success(e)
    ensures r.Success? ==> forall k :: k in im <==> exists e :: e in r.value.imports && e.importPath == k
    ensures r.Success? ==> forall e :: e in r.value.imports ==>
              e.importPath in im && e.ident == SymbolSet.ImportIdent(im[e.importPath])
  {
    im, rm := map[], map[];
    var imports := new InsertionSet<string>();
    var receivers := new InsertionSet<string>();
    var endpoints := LegacyEndpointsIter(routes, imports, receivers);
    if endpoints.Failure? {
      return Failure(endpoints.error), im, rm;
    }
    im, rm := imports.s, receivers.s;
    var recvEntries := AllReceivers(receivers);
    if recvEntries.Failure? {
      ghost var k :| k in receivers.s && DecodeKey(k, receivers.s[k]).Failure?;
      DecodeIgnoresIndex(k, receivers.s[k]);
      return Failure(recvEntries.error), im, rm;
    }
    forall k | k in TreeReceiverTexts(routes) ensures DecodeKey(k, 0).Success? {
      DecodeIgnoresIndex(k, receivers.s[k]);
    }
    var impEntries := AllImports(imports);
    r := Success(RegisterData(recvEntries.value, impEntries, endpoints.value, validateUrl));
  }

  /** Whether a key decodes does not depend on the index it carries. */
  lemma DecodeIgnoresIndex(k: string, index: nat)
    ensures DecodeKey(k, index).Success? == DecodeKey(k, 0).Success?
  {
  }

  // ---------------------------------------------------------------------
  // formatMiddleware and toSimplifiedParams

  /** How the older generator references a middleware: always through its package. */
  function LegacyMiddlewareRef(mw: Repr.Middleware, imports: map<string, nat>): string {
    SymbolSet.ImportIdent(IndexOf(imports, mw.importPath)) + "." + mw.name
  }

  method FormatMiddleware(mws: seq<Repr.Middleware>, imports: InsertionSet<string>) returns (formatted: seq<string>)
    ensures |formatted| == |mws|
    ensures forall i :: 0 <= i < |mws| ==> formatted[i] == LegacyMiddlewareRef(mws[i], imports.s)
  {
    formatted := [];
    for i := 0 to |mws|
      invariant |formatted| == i
      invariant forall j :: 0 <= j < i ==> formatted[j] == LegacyMiddlewareRef(mws[j], imports.s)
    {
      var mw := mws[i];
      var index;
      if mw.receiver.Some? {
        index := imports.Get(mw.importPath);
      } else {
        index := imports.Get(mw.importPath);
      }
      formatted := formatted + [SymbolSet.ImportIdent(index) + "." + mw.name];
    }
  }

  /** The receiver plays no part: a method and a free function of one package read alike. */
  lemma LegacyMiddlewareIgnoresReceiver(mw: Repr.Middleware, recv: Option<Repr.Receiver>, imports: map<string, nat>)
    ensures LegacyMiddlewareRef(mw.(receiver := recv), imports) == LegacyMiddlewareRef(mw, imports)
    ensures mw.importPath !in imports ==> LegacyMiddlewareRef(mw, imports) == "ai." + mw.name
  {
    SymbolSet.LettersTable();
  }

  /** serializationToFunctionName: PATH and QUERY only. */
  function SimplifiedFunction(t: Repr.SerializationType): (r: Option<string>)
    ensures r.Some? ==> r == Generate.RequestFunction(t) && r.value in ["c.Params", "c.Query"]
    ensures t == Repr.SerializationHEADER ==> r.None?
  {
    if t == Repr.SerializationPATH then Some("c.Params")
    else if t == Repr.SerializationQUERY then Some("c.Query")
    else None
  }

  /** The simplified parameters keep their wire names: no role here is renamed. */
  lemma SimplifiedParamsKeepWireNames(fields: seq<Repr.StructField>)
    requires Generate.Params(fields, SimplifiedFunction).Success?
    ensures forall p :: p in Generate.Params(fields, SimplifiedFunction).value ==>
              exists f :: f in fields && f.serialization.Some? && f.name == p.name &&
                f.serialization.value.name == p.serialization &&
                f.serialization.value.serType in [Repr.SerializationPATH, Repr.SerializationQUERY]
  {
    SimplifiedParamsFrom(fields);
  }

  lemma {:induction false} SimplifiedParamsFrom(fields: seq<Repr.StructField>)
    requires Generate.Params(fields, SimplifiedFunction).Success?
    ensures forall p :: p in Generate.Params(fields, SimplifiedFunction).value ==>
              exists f :: f in fields && f.serialization.Some? &&
                SimplifiedFunction(f.serialization.value.serType).Some? &&
                p == Generate.ParamOf(f, SimplifiedFunction(f.serialization.value.serType).value)
  {
    if |fields| > 0 {
      var init := fields[..|fields| - 1];
      SimplifiedParamsFrom(init);
      assert fields == init + [fields[|fields| - 1]];
    }
  }

  /** toSimplifiedParams: the PATH and QUERY fields in order; a field without serialization is dereferenced as nil. */
  method ToSimplifiedParams(body: Repr.Data) returns (r: Result<seq<Generate.Param>>)
    ensures r == Generate.Params(body.fields, SimplifiedFunction)
  {
    var params := [];
    for i := 0 to |body.fields|
      invariant Generate.Params(body.fields[..i], SimplifiedFunction) == Success(params)
    {
      var f := body.fields[i];
      assert body.fields[..i + 1][..i] == body.fields[..i];
      if f.serialization.None? {
        assert f in body.fields;
        Generate.ParamsPanics(body.fields, SimplifiedFunction);
        return Failure(Panic("nil serialization"));
      }
      var fnName := SimplifiedFunction(f.serialization.value.serType);
      if fnName.None? {
        continue;
      }
      params := params + [Generate.Param(f.name, f.serialization.value.name, fnName.value)];
    }
    assert body.fields[..|body.fields|] == body.fields;
    r := Success(params);
  }
}
