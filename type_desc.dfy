// A descriptor of Go types standing in for the `reflect` values the
// extractor inspects, and the kind rules of pkg/parse/server/reflect.go.

module TypeDesc {
  import opened Results

  /** reflect.Kind. */
  datatype Kind =
    | Invalid | Bool
    | Int | Int8 | Int16 | Int32 | Int64
    | Uint | Uint8 | Uint16 | Uint32 | Uint64 | Uintptr
    | Float32 | Float64 | Complex64 | Complex128
    | Array | Chan | Func | Interface | Map | Pointer | Slice | String | Struct
    | UnsafePointer

  /** The kinds whose structure the extractor looks into. */
  predicate IsStructuredKind(k: Kind) {
    k.Array? || k.Func? || k.Map? || k.Pointer? || k.Slice? || k.Struct?
  }

  type LeafKind = k: Kind | !IsStructuredKind(k) witness Bool

  /**
   * A Go type as reflect shows it: its kind, its declared name and package
   * path where it has one, and the parts the extractor reads (pointee,
   * element, key, struct fields, function parameters and results).
   */
  datatype Type =
    | Leaf(kind: LeafKind, name: string, pkgPath: string)
    | PointerTo(elem: Type)
    | ArrayOf(length: nat, elem: Type)
    | SliceOf(elem: Type)
    | MapOf(key: Type, elem: Type)
    | StructOf(name: string, pkgPath: string, fields: seq<FieldDesc>)
    | FuncOf(ins: seq<Param>, outs: seq<Param>)
  {
    /** reflect.Type.Kind */
    function KindOf(): Kind {
      match this
      case Leaf(k, _, _) => k
      case PointerTo(_) => Pointer
      case ArrayOf(_, _) => Array
      case SliceOf(_) => Slice
      case MapOf(_, _) => Map
      case StructOf(_, _, _) => Struct
      case FuncOf(_, _) => Func
    }

    /** reflect.Type.Name: empty for unnamed types. */
    function Name(): string {
      match this
      case Leaf(_, n, _) => n
      case StructOf(n, _, _) => n
      case _ => ""
    }

    /** reflect.Type.PkgPath: empty for unnamed types. */
    function PkgPath(): string {
      match this
      case Leaf(_, _, p) => p
      case StructOf(_, p, _) => p
      case _ => ""
    }
  }

  /** reflect.StructField: name, type, embedded flag and the parsed tag. */
  datatype FieldDesc = FieldDesc(name: string, typ: Type, anonymous: bool, tag: map<string, string>)

  /**
   * A function parameter or result, with whether its type implements
   * context.Context and error (reflect.Type.Implements).
   */
  datatype Param = Param(typ: Type, implementsContext: bool, implementsError: bool)

  /**
   * A handler or middleware value of static type `any`: its dynamic type and
   * the qualified name the runtime reports for it.
   */
  datatype FnValue = FnValue(typ: Type, qualifiedName: string)

  /** reflect.StructTag.Get: the value under `key`, or "" when absent. */
  function TagGet(tag: map<string, string>, key: string): string {
    if key in tag then tag[key] else ""
  }

  const IntKinds: seq<Kind> := [Int, Int64, Int32, Int16, Int8]
  const UintKinds: seq<Kind> := [Uint, Uint64, Uint32, Uint16, Uint8]
  const PrimitiveKinds: seq<Kind> := IntKinds + UintKinds + [String, Bool]
  const AllowedFieldKinds: seq<Kind> := PrimitiveKinds + [Struct, Array, Slice, Map]
  const AllowedMapKeyKinds: seq<Kind> := IntKinds + [String]

  /** The kind lists nest as intended and exclude floats and unsigned keys. */
  lemma KindLists()
    ensures forall k :: k in PrimitiveKinds ==> k in AllowedFieldKinds
    ensures forall k :: k in AllowedMapKeyKinds ==> k in PrimitiveKinds
    ensures Float32 !in AllowedFieldKinds && Float64 !in AllowedFieldKinds
    ensures forall k :: k in UintKinds ==> k !in AllowedMapKeyKinds
    ensures Bool !in AllowedMapKeyKinds
    ensures Pointer !in AllowedFieldKinds && Chan !in AllowedFieldKinds
    ensures Func !in AllowedFieldKinds && Interface !in AllowedFieldKinds
  {
  }

  /**
   * extractFieldTypeIter: follows at most one pointer, then admits only the
   * allowed kinds; `level` counts the pointers already followed.
   */
  function ExtractFieldTypeIter(t: Type, level: nat): (r: Result<Type>)
    ensures r.Success? ==> r.value.KindOf() in AllowedFieldKinds
  {
    if level == 2 then Failure(SinglePointerRequired)
    else if t.PointerTo? then ExtractFieldTypeIter(t.elem, level + 1)
    else if t.KindOf() == Float32 || t.KindOf() == Float64 then Failure(NoFloat)
    else if t.KindOf() in AllowedFieldKinds then Success(t)
    else Failure(BadValueFromList("type"))
  }

  function ExtractFieldType(t: Type): (r: Result<Type>)
    ensures r.Success? ==> r.value.KindOf() in AllowedFieldKinds
  {
    ExtractFieldTypeIter(t, 0)
  }

  /** `T` and `*T` resolve to `T`, `**T` is refused, floats are refused. */
  lemma ExtractFieldTypeMeaning(t: Type)
    ensures ExtractFieldType(PointerTo(PointerTo(t))) == Failure(SinglePointerRequired)
    ensures !t.PointerTo? ==> ExtractFieldType(PointerTo(t)) == ExtractFieldType(t)
    ensures !t.PointerTo? ==>
              (ExtractFieldType(t).Success? <==> t.KindOf() in AllowedFieldKinds)
    ensures ExtractFieldType(t).Success? ==>
              ExtractFieldType(t).value == t || t == PointerTo(ExtractFieldType(t).value)
    ensures t.KindOf() == Float32 || t.KindOf() == Float64 ==>
              ExtractFieldType(t) == Failure(NoFloat) && ExtractFieldType(PointerTo(t)) == Failure(NoFloat)
    ensures !t.PointerTo? && t.KindOf() !in AllowedFieldKinds && t.KindOf() != Float32 && t.KindOf() != Float64 ==>
              ExtractFieldType(t) == Failure(BadValueFromList("type"))
  {
    assert ExtractFieldTypeIter(PointerTo(PointerTo(t)), 0) == ExtractFieldTypeIter(PointerTo(t), 1);
    assert ExtractFieldTypeIter(PointerTo(t), 1) == ExtractFieldTypeIter(t, 2);
    assert ExtractFieldType(PointerTo(t)) == ExtractFieldTypeIter(t, 1);
    if t.PointerTo? {
      assert ExtractFieldType(t) == ExtractFieldTypeIter(t.elem, 1);
      if t.elem.PointerTo? {
        assert ExtractFieldTypeIter(t.elem, 1) == ExtractFieldTypeIter(t.elem.elem, 2);
      }
    }
  }
}
