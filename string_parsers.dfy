// Splitting the runtime name of a handler function into package path,
// receiver and function name (pkg/parse/server/string_parsers.go).

module StringParsers {
  import opened Results
  import opened Text
  import opened Repr

  /** A function the runtime names without any '/' is taken to be anonymous. */
  predicate IsFnAnonymousByQualifiedName(qName: string)
    ensures !IsFnAnonymousByQualifiedName(qName) ==> 0 <= LastIndex(qName, '/') < |qName|
  {
    '/' !in qName
  }

  /**
   * parseMethod: `(*T)` is a pointer receiver named T; a segment that
   * neither starts with '(' nor ends with ')' is a value receiver. Indexing
   * an empty segment, or slicing a pointer segment shorter than three
   * characters, panics.
   */
  function ParseMethod(recv: string): (r: Result<Receiver>)
    ensures r.Failure? ==> r.error.Panic?
    ensures r.Failure? <==> |recv| == 0 || ((recv[0] == '(' || recv[|recv| - 1] == ')') && |recv| < 3)
    ensures r.Success? ==> (r.value.pointer <==> recv[0] == '(' || recv[|recv| - 1] == ')')
    ensures r.Success? ==> |r.value.name| <= |recv| && (r.value.pointer ==> |r.value.name| == |recv| - 3)
  {
    if |recv| == 0 then Failure(Panic("index out of range"))
    else if recv[0] != '(' && recv[|recv| - 1] != ')' then Success(Receiver(recv, false))
    else if |recv| < 3 then Failure(Panic("slice bounds out of range"))
    else Success(Receiver(recv[2..|recv| - 1], true))
  }

  /** The three results of parseDottedIdents. */
  datatype DottedIdents = DottedIdents(pkgName: string, fnName: string, receiver: Option<Receiver>)

  /**
   * parseDottedIdents: two dot-separated segments name a free function,
   * three a method (the name cut at its first '-', which drops the `-fm`
   * the runtime adds to method values); anything else is refused.
   */
  function ParseDottedIdents(dotIdents: string): (r: Result<DottedIdents>)
    ensures r.Success? ==> |r.value.pkgName| <= |dotIdents|
    ensures r.Success? ==> (r.value.receiver.None? <==> |Split(dotIdents, '.')| == 2)
    ensures |Split(dotIdents, '.')| != 2 && |Split(dotIdents, '.')| != 3 ==> r == Failure(FatalInvalidFnName)
    ensures r.Failure? ==> r.error == FatalInvalidFnName || r.error.Panic?
  {
    var idents := Split(dotIdents, '.');
    if |idents| == 2 then Success(DottedIdents(idents[0], idents[1], None))
    else if |idents| == 3 then
      var name := Split(idents[2], '-')[0];
      var recv :- ParseMethod(idents[1]);
      Success(DottedIdents(idents[0], name, Some(recv)))
    else Failure(FatalInvalidFnName)
  }

  /**
   * parseIdentsFromQualifiedName: the text from the last '/' on is split on
   * dots; the package path runs up to the end of the first dot segment.
   */
  function ParseIdentsFromQualifiedName(qName: string): (r: Result<Handler>)
    ensures IsFnAnonymousByQualifiedName(qName) ==> r == Failure(FnIsAnon)
  {
    if IsFnAnonymousByQualifiedName(qName) then Failure(FnIsAnon)
    else
      var pathIdx := LastIndex(qName, '/');
      var idents :- ParseDottedIdents(qName[pathIdx..]);
      Success(Handler(idents.fnName, qName[..pathIdx + |idents.pkgName|], idents.receiver))
  }

  /** How a receiver type appears in a runtime name: `(*T)` or `T`. */
  function ReceiverText(r: Receiver): string {
    if r.pointer then "(*" + r.name + ")" else r.name
  }

  /**
   * The name the Go runtime reports for a handler: `path/pkg.Func` for a
   * function, `path/pkg.T.Method` or `path/pkg.(*T).Method` for a method,
   * followed by `suffix` (`-fm` for a method value).
   */
  function RuntimeName(h: Handler, suffix: string): string {
    match h.receiver
    case None => h.importPath + "." + h.name
    case Some(r) => h.importPath + "." + ReceiverText(r) + "." + h.name + suffix
  }

  /** The identifiers carry no character the parser splits on. */
  predicate PlainIdent(s: string) {
    '.' !in s && '/' !in s && '-' !in s && '(' !in s && ')' !in s
  }

  /**
   * The handlers whose runtime names parse back: a package path with a
   * '/' and no '.' in its last element, and plain identifiers.
   */
  predicate Nameable(h: Handler) {
    && '/' in h.importPath
    && '.' !in h.importPath[LastIndex(h.importPath, '/')..]
    && PlainIdent(h.name)
    && (h.receiver.Some? ==> |h.receiver.value.name| > 0 && PlainIdent(h.receiver.value.name))
  }

  lemma ParseMethodReceiverText(r: Receiver)
    requires |r.name| > 0 && PlainIdent(r.name)
    ensures ParseMethod(ReceiverText(r)) == Success(r)
  {
    var t := ReceiverText(r);
    if r.pointer {
      assert t[2..|t| - 1] == r.name;
    } else {
      assert t[0] in r.name && t[|t| - 1] in r.name;
    }
  }

  /**
   * The part of a runtime name from the last '/' on is the last element of
   * the package path, a dot, and the rest; the package path is recovered
   * from the length of that last element.
   */
  lemma SplitAtPackage(imp: string, rest: string)
    requires '/' in imp && '.' !in imp[LastIndex(imp, '/')..] && '/' !in rest
    ensures !IsFnAnonymousByQualifiedName(imp + "." + rest)
    ensures LastIndex(imp + "." + rest, '/') == LastIndex(imp, '/')
    ensures Split((imp + "." + rest)[LastIndex(imp, '/')..], '.') == [imp[LastIndex(imp, '/')..]] + Split(rest, '.')
    ensures (imp + "." + rest)[..LastIndex(imp, '/') + |imp[LastIndex(imp, '/')..]|] == imp
  {
    var k := LastIndex(imp, '/');
    var q := imp + "." + rest;
    assert q == imp + ("." + rest);
    LastIndexAppend(imp, "." + rest, '/');
    assert q[k..] == imp[k..] + "." + rest;
    SplitAfterSeparator(imp[k..], rest, '.');
  }

  /** How the parse of a qualified name is assembled from its dotted part. */
  lemma QualifiedFromDotted(q: string, d: DottedIdents)
    requires '/' in q && ParseDottedIdents(q[LastIndex(q, '/')..]) == Success(d)
    ensures ParseIdentsFromQualifiedName(q) ==
              Success(Handler(d.fnName, q[..LastIndex(q, '/') + |d.pkgName|], d.receiver))
  {
  }

  lemma DottedFunction(s: string, pkg: string, name: string)
    requires Split(s, '.') == [pkg, name]
    ensures ParseDottedIdents(s) == Success(DottedIdents(pkg, name, None))
  {
  }

  lemma DottedMethod(s: string, pkg: string, recv: string, tail: string, r: Receiver)
    requires Split(s, '.') == [pkg, recv, tail] && ParseMethod(recv) == Success(r)
    ensures ParseDottedIdents(s) == Success(DottedIdents(pkg, Split(tail, '-')[0], Some(r)))
  {
  }

  lemma ParseFreeFunctionName(h: Handler)
    requires Nameable(h) && h.receiver.None?
    ensures ParseIdentsFromQualifiedName(RuntimeName(h, "")) == Success(h)
  {
    var imp := h.importPath;
    var k := LastIndex(imp, '/');
    var q := imp + "." + h.name;
    SplitAtPackage(imp, h.name);
    SplitWithoutSeparator(h.name, '.');
    DottedFunction(q[k..], imp[k..], h.name);
    QualifiedFromDotted(q, DottedIdents(imp[k..], h.name, None));
  }

  /** The method name, cut at its first '-', loses exactly the suffix. */
  lemma CutAtDash(name: string, suffix: string)
    requires '-' !in name
    requires suffix == "" || suffix[0] == '-'
    ensures Split(name + suffix, '-')[0] == name
  {
    if suffix == "" {
      assert name + suffix == name;
      SplitWithoutSeparator(name, '-');
    } else {
      assert name + suffix == name + ['-'] + suffix[1..];
      SplitAfterSeparator(name, suffix[1..], '-');
    }
  }

  /** The dotted part of a method's runtime name has three segments. */
  lemma MethodSegments(imp: string, rt: string, tail: string)
    requires '/' in imp && '.' !in imp[LastIndex(imp, '/')..]
    requires '/' !in rt && '.' !in rt && '/' !in tail && '.' !in tail
    ensures Split((imp + "." + (rt + "." + tail))[LastIndex(imp, '/')..], '.')
            == [imp[LastIndex(imp, '/')..], rt, tail]
  {
    SplitAtPackage(imp, rt + "." + tail);
    SplitAfterSeparator(rt, tail, '.');
    SplitWithoutSeparator(tail, '.');
  }

  lemma ParseMethodName(h: Handler, suffix: string)
    requires Nameable(h) && h.receiver.Some?
    requires suffix == "" || (suffix[0] == '-' && '.' !in suffix && '/' !in suffix)
    ensures ParseIdentsFromQualifiedName(RuntimeName(h, suffix)) == Success(h)
  {
    var r := h.receiver.value;
    var rt := ReceiverText(r);
    var tail := h.name + suffix;
    var imp := h.importPath;
    var k := LastIndex(imp, '/');
    var q := imp + "." + (rt + "." + tail);
    assert RuntimeName(h, suffix) == q;
    assert '/' !in rt && '.' !in rt;
    MethodSegments(imp, rt, tail);
    SplitAtPackage(imp, rt + "." + tail);
    CutAtDash(h.name, suffix);
    ParseMethodReceiverText(r);
    DottedMethod(q[k..], imp[k..], rt, tail, r);
    QualifiedFromDotted(q, DottedIdents(imp[k..], h.name, Some(r)));
  }

  /** Parsing the runtime name of a nameable handler gives the handler back. */
  lemma ParseRuntimeName(h: Handler, suffix: string)
    requires Nameable(h)
    requires h.receiver.None? ==> suffix == ""
    requires suffix == "" || (suffix[0] == '-' && '.' !in suffix && '/' !in suffix)
    ensures ParseIdentsFromQualifiedName(RuntimeName(h, suffix)) == Success(h)
  {
    if h.receiver.None? {
      ParseFreeFunctionName(h);
    } else {
      ParseMethodName(h, suffix);
    }
  }

  /** The package path used by the examples passes the conditions. */
  lemma ExamplePackage()
    ensures LastIndex("example.com/mypkg", '/') == 11
    ensures "example.com/mypkg"[11..] == "/mypkg"
  {
    assert "example.com/mypkg" == "example.com/" + "mypkg";
    LastIndexAppend("example.com/", "mypkg", '/');
  }

  /**
   * The documented example `example.com/mypkg.User.GetName` is the runtime
   * name of the method GetName of the value receiver User in package
   * example.com/mypkg (ExampleRuntimeName), and that handler is nameable
   * (ExampleNameable), so by ParseRuntimeName it parses back to that
   * handler: the import is `example.com/mypkg`.
   */
  lemma ExampleRuntimeName()
    ensures RuntimeName(Handler("GetName", "example.com/mypkg", Some(Receiver("User", false))), "")
            == "example.com/mypkg.User.GetName"
  {
  }

  lemma ExampleNameable()
    ensures Nameable(Handler("GetName", "example.com/mypkg", Some(Receiver("User", false))))
  {
    ExamplePackage();
    assert '.' !in "/mypkg";
    assert PlainIdent("GetName") && PlainIdent("User");
  }

  /**
   * Receiver segments: `(*Service)` is a pointer, an empty segment panics,
   * and a segment with only one parenthesis takes the pointer branch.
   */
  lemma ParseMethodExamples()
    ensures ParseMethod("(*Service)") == Success(Receiver("Service", true))
    ensures ParseMethod("User") == Success(Receiver("User", false))
    ensures ParseMethod("") == Failure(Panic("index out of range"))
    ensures ParseMethod("User)") == Success(Receiver("er", true))
    ensures ParseMethod("()") == Failure(Panic("slice bounds out of range"))
  {
    assert "(*Service)"[2..9] == "Service";
    assert "User)"[2..4] == "er";
  }
}
