// Outcomes shared by every part of the model: the nullable pointer (Option),
// the (value, error) pair a Go function returns (Result), and the error
// values the extractor and the generators can produce.

module Results {

  /** A Go pointer or optional value: nil is None. */
  datatype Option<+T> = None | Some(value: T)

  /**
   * The errors of the repository, one variant per sentinel error. The
   * message text and the context wrapping are not modelled. A Go runtime
   * panic (index out of range, nil dereference, an explicit panic call) is
   * the variant Panic.
   */
  datatype Error =
    | NoValue
    | BadValue(what: string)
    | BadValueFromList(what: string)
    | BadType(want: string)
    | BadFormatting(got: string)
    | FnIsAnon
    | SinglePointerRequired
    | NoFloat
    | FatalInvalidParam(want: string)
    | FatalInvalidFnName
    | FatalStructIsAnon
    | FatalUnreachable
    | FnSignature(cause: Error)
    | Panic(reason: string)

  /** A Go result pair: either a value with a nil error or a non-nil error. */
  datatype Result<+T> = Success(value: T) | Failure(error: Error)
  {
    predicate IsFailure() {
      Failure?
    }

    function PropagateFailure<U>(): Result<U>
      requires Failure?
    {
      Failure(error)
    }

    function Extract(): T
      requires Success?
    {
      value
    }
  }

  /**
   * Applies `f` to every element in order and stops at the first error, as
   * a Go loop that appends each result and returns on the first non-nil
   * error does.
   */
  function MapResult<A, B>(xs: seq<A>, f: A -> Result<B>): (r: Result<seq<B>>)
    ensures r.Success? ==> |r.value| == |xs|
  {
    if |xs| == 0 then Success([])
    else
      var y :- f(xs[0]);
      var ys :- MapResult(xs[1..], f);
      Success([y] + ys)
  }

  /** MapResult succeeds exactly when every element succeeds, index by index. */
  lemma {:induction false} MapResultSuccess<A, B>(xs: seq<A>, f: A -> Result<B>, ys: seq<B>)
    ensures MapResult(xs, f) == Success(ys) <==>
              |ys| == |xs| && forall i :: 0 <= i < |xs| ==> f(xs[i]) == Success(ys[i])
  {
    if |xs| > 0 {
      MapResultSuccess(xs[1..], f, if |ys| > 0 then ys[1..] else []);
      if |ys| == |xs| && forall i :: 0 <= i < |xs| ==> f(xs[i]) == Success(ys[i]) {
        assert f(xs[0]) == Success(ys[0]);
        assert forall i :: 0 <= i < |xs| - 1 ==> f(xs[1..][i]) == Success(ys[1..][i]) by {
          forall i | 0 <= i < |xs| - 1 ensures f(xs[1..][i]) == Success(ys[1..][i]) {
            assert f(xs[i + 1]) == Success(ys[i + 1]);
          }
        }
        assert ys == [ys[0]] + ys[1..];
      }
      if MapResult(xs, f) == Success(ys) {
        forall i | 0 <= i < |xs| ensures f(xs[i]) == Success(ys[i]) {
          if i > 0 {
            assert xs[i] == xs[1..][i - 1];
          }
        }
      }
    }
  }

  /** The error of MapResult is the error of the first element that fails. */
  lemma {:induction false} MapResultFirstFailure<A, B>(xs: seq<A>, f: A -> Result<B>, k: nat)
    requires k < |xs| && f(xs[k]).Failure?
    requires forall i :: 0 <= i < k ==> f(xs[i]).Success?
    ensures MapResult(xs, f) == Failure(f(xs[k]).error)
  {
    if k > 0 {
      MapResultFirstFailure(xs[1..], f, k - 1);
    }
  }

  /** Processing one more element extends the result or stops with its error. */
  lemma MapResultSnoc<A, B>(xs: seq<A>, x: A, f: A -> Result<B>)
    ensures MapResult(xs + [x], f) ==
              match MapResult(xs, f)
              case Failure(e) => Failure(e)
              case Success(ys) =>
                match f(x)
                case Failure(e) => Failure(e)
                case Success(y) => Success(ys + [y])
  {
    MapResultConcat(xs, [x], f);
    assert [x][1..] == [];
    match f(x)
    case Failure(e) =>
    case Success(y) =>
      assert MapResult([x], f) == Success([y] + []);
      assert [y] + [] == [y];
      match MapResult(xs, f)
      case Failure(e) =>
      case Success(ys) =>
  }

  /** Processing a concatenation is processing each part in turn. */
  lemma {:induction false} MapResultConcat<A, B>(xs: seq<A>, zs: seq<A>, f: A -> Result<B>)
    ensures MapResult(xs + zs, f) ==
              match MapResult(xs, f)
              case Failure(e) => Failure(e)
              case Success(ys) =>
                match MapResult(zs, f)
                case Failure(e) => Failure(e)
                case Success(ws) => Success(ys + ws)
  {
    if |xs| == 0 {
      assert xs + zs == zs;
      match MapResult(zs, f)
      case Failure(e) =>
      case Success(ws) =>
        assert [] + ws == ws;
    } else {
      assert (xs + zs)[1..] == xs[1..] + zs;
      MapResultConcat(xs[1..], zs, f);
      match MapResult(xs, f)
      case Failure(e) =>
      case Success(ys) =>
        match MapResult(zs, f)
        case Failure(e) =>
        case Success(ws) =>
          assert [ys[0]] + (ys[1..] + ws) == ys + ws;
    }
  }

  /**
   * A loop that has processed `xs[..i]` into `ys` and now processes
   * `xs[i]` successfully has processed `xs[..i + 1]`.
   */
  lemma MapResultStep<A, B>(xs: seq<A>, i: nat, f: A -> Result<B>, ys: seq<B>)
    requires i < |xs| && MapResult(xs[..i], f) == Success(ys) && f(xs[i]).Success?
    ensures MapResult(xs[..i + 1], f) == Success(ys + [f(xs[i]).value])
  {
    assert xs[..i + 1] == xs[..i] + [xs[i]];
    MapResultSnoc(xs[..i], xs[i], f);
  }

  /** Such a loop that fails on `xs[i]` returns the error of the whole map. */
  lemma MapResultStop<A, B>(xs: seq<A>, i: nat, f: A -> Result<B>, ys: seq<B>)
    requires i < |xs| && MapResult(xs[..i], f) == Success(ys) && f(xs[i]).Failure?
    ensures MapResult(xs, f) == Failure(f(xs[i]).error)
  {
    MapResultSuccess(xs[..i], f, ys);
    forall j | 0 <= j < i ensures f(xs[j]).Success? {
      assert xs[..i][j] == xs[j];
    }
    MapResultFirstFailure(xs, f, i);
  }
}
