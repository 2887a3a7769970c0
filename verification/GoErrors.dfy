/**
 Go error values as trees. `fmt.Errorf` with `%w` keeps the wrapped error reachable; with `%s` it only
 keeps the text. `errors.As` walks the reachable part, depth first and left to right.
 */
module GoErrors {
  import opened Wrappers

  datatype GoError =
    | Plain(msg: string)                              // errors.New, fmt.Errorf without an error argument
    | Flattened(msg: string, shown: GoError)          // fmt.Errorf("...%s", err): not reachable
    | Wrapped(msg: string, err: GoError)              // fmt.Errorf("...%w", err)
    | Joined(msg: string, errs: seq<GoError>)         // several %w, errors.Join
    | ResponseError(status: int)                      // *vaultapi.ResponseError
    | InvalidData(msg: string)                        // cmerrors.NewInvalidData
    | PermanentError(err: GoError)                    // signer.PermanentError{Err}
    | IssuerError(err: GoError)                       // signer.IssuerError{Err}

  /** The target types that the controller passes to errors.As. */
  datatype Target = AnyResponse | AnyInvalidData | AnyPermanent | AnyIssuerError

  predicate Matches(e: GoError, t: Target) {
    match t
    case AnyResponse => e.ResponseError?
    case AnyInvalidData => e.InvalidData?
    case AnyPermanent => e.PermanentError?
    case AnyIssuerError => e.IssuerError?
  }

  /** errors.As: the error that the target variable is set to, if any. */
  function As(e: GoError, t: Target): Option<GoError>
    decreases e, 1
  {
    if Matches(e, t) then Some(e) else
    match e
    case Wrapped(_, x) => As(x, t)
    case PermanentError(x) => As(x, t)
    case IssuerError(x) => As(x, t)
    case Joined(_, xs) => AsAny(xs, t)
    case _ => None
  }

  function AsAny(es: seq<GoError>, t: Target): Option<GoError>
    decreases es, 0
  {
    if es == [] then None
    else if As(es[0], t).Some? then As(es[0], t)
    else AsAny(es[1..], t)
  }

  predicate Has(e: GoError, t: Target) {
    As(e, t).Some?
  }

  /** Every error reachable from `e`, in the order errors.As visits them. */
  function Chain(e: GoError): seq<GoError>
    decreases e, 1
  {
    [e] + match e
          case Wrapped(_, x) => Chain(x)
          case PermanentError(x) => Chain(x)
          case IssuerError(x) => Chain(x)
          case Joined(_, xs) => Chains(xs)
          case _ => []
  }

  function Chains(es: seq<GoError>): seq<GoError>
    decreases es, 0
  {
    if es == [] then [] else Chain(es[0]) + Chains(es[1..])
  }

  function FirstMatch(es: seq<GoError>, t: Target): Option<GoError> {
    if es == [] then None
    else if Matches(es[0], t) then Some(es[0])
    else FirstMatch(es[1..], t)
  }

  lemma {:induction false} FirstMatchConcat(a: seq<GoError>, b: seq<GoError>, t: Target)
    ensures FirstMatch(a + b, t) == if FirstMatch(a, t).Some? then FirstMatch(a, t) else FirstMatch(b, t)
  {
    if a == [] {
      assert a + b == b;
    } else {
      assert (a + b)[1..] == a[1..] + b;
      FirstMatchConcat(a[1..], b, t);
    }
  }

  /** errors.As returns the first match of the flattened tree. */
  lemma {:induction false} AsIsFirst(e: GoError, t: Target)
    ensures As(e, t) == FirstMatch(Chain(e), t)
    decreases e, 1
  {
    var rest := Chain(e)[1..];
    match e
    case Wrapped(_, x) => AsIsFirst(x, t); assert rest == Chain(x);
    case PermanentError(x) => AsIsFirst(x, t); assert rest == Chain(x);
    case IssuerError(x) => AsIsFirst(x, t); assert rest == Chain(x);
    case Joined(_, xs) => AsAnyIsFirst(xs, t); assert rest == Chains(xs);
    case _ =>
  }

  lemma {:induction false} AsAnyIsFirst(es: seq<GoError>, t: Target)
    ensures AsAny(es, t) == FirstMatch(Chains(es), t)
    decreases es, 0
  {
    if es != [] {
      AsIsFirst(es[0], t);
      AsAnyIsFirst(es[1..], t);
      FirstMatchConcat(Chain(es[0]), Chains(es[1..]), t);
    }
  }

  /** FirstMatch by position: nothing before it matches, and None means that nothing matches at all. */
  lemma {:induction false} FirstMatchPosition(es: seq<GoError>, t: Target)
    ensures FirstMatch(es, t).None? <==> forall i :: 0 <= i < |es| ==> !Matches(es[i], t)
    ensures FirstMatch(es, t).Some? ==>
              exists i :: 0 <= i < |es| && es[i] == FirstMatch(es, t).value && Matches(es[i], t)
                && forall j :: 0 <= j < i ==> !Matches(es[j], t)
  {
    if es != [] {
      FirstMatchPosition(es[1..], t);
      assert forall i :: 1 <= i < |es| ==> es[i] == es[1..][i - 1];
      assert forall i :: 0 <= i < |es| - 1 ==> es[1..][i] == es[i + 1];
      if Matches(es[0], t) {
        assert es[0] == FirstMatch(es, t).value;
      } else if FirstMatch(es, t).Some? {
        var i :| 0 <= i < |es[1..]| && es[1..][i] == FirstMatch(es[1..], t).value && Matches(es[1..][i], t)
          && forall j :: 0 <= j < i ==> !Matches(es[1..][j], t);
        assert es[i + 1] == FirstMatch(es, t).value;
      }
    }
  }

  /** What errors.As finds is a node of the chain and has the requested type. */
  lemma AsFindsMatch(e: GoError, t: Target)
    requires Has(e, t)
    ensures Matches(As(e, t).value, t) && As(e, t).value in Chain(e)
  {
    AsIsFirst(e, t);
    FirstMatchPosition(Chain(e), t);
  }

  // ---------------------------------------------------------------- layers of wrapping

  /** One way of wrapping an error so that it stays reachable. */
  datatype Layer =
    | WithMessage(msg: string)
    | AsPermanent
    | AsIssuerError
    | Among(msg: string, before: seq<GoError>, after: seq<GoError>)

  function Wrap(l: Layer, e: GoError): GoError {
    match l
    case WithMessage(m) => Wrapped(m, e)
    case AsPermanent => PermanentError(e)
    case AsIssuerError => IssuerError(e)
    case Among(m, before, after) => Joined(m, before + [e] + after)
  }

  /** The layers applied from the innermost, which is the last one, outwards. */
  function WrapAll(ls: seq<Layer>, e: GoError): GoError {
    if ls == [] then e else Wrap(ls[0], WrapAll(ls[1..], e))
  }

  /** A layer that brings no match of its own: no sibling has one, and it is not itself one. */
  predicate Quiet(l: Layer, t: Target) {
    match l
    case WithMessage(_) => true
    case AsPermanent => !t.AnyPermanent?
    case AsIssuerError => !t.AnyIssuerError?
    case Among(_, before, after) => AsAny(before, t).None? && AsAny(after, t).None?
  }

  lemma {:induction false} AsAnyConcat(a: seq<GoError>, b: seq<GoError>, t: Target)
    ensures AsAny(a + b, t) == if AsAny(a, t).Some? then AsAny(a, t) else AsAny(b, t)
  {
    if a == [] {
      assert a + b == b;
    } else {
      assert (a + b)[1..] == a[1..] + b;
      AsAnyConcat(a[1..], b, t);
    }
  }

  /** In a join, the leftmost operand that holds a match decides. */
  lemma AsAmong(msg: string, before: seq<GoError>, e: GoError, after: seq<GoError>, t: Target)
    ensures As(Wrap(Among(msg, before, after), e), t) ==
            if AsAny(before, t).Some? then AsAny(before, t)
            else if Has(e, t) then As(e, t)
            else AsAny(after, t)
  {
    AsAnyConcat(before + [e], after, t);
    AsAnyConcat(before, [e], t);
    assert [e][1..] == [];
  }

  /** Any stack of quiet layers is invisible to errors.As. */
  lemma {:induction false} QuietLayersAreInvisible(ls: seq<Layer>, e: GoError, t: Target)
    requires forall i :: 0 <= i < |ls| ==> Quiet(ls[i], t)
    ensures As(WrapAll(ls, e), t) == As(e, t)
  {
    if ls != [] {
      QuietLayersAreInvisible(ls[1..], e, t);
      if ls[0].Among? {
        AsAmong(ls[0].msg, ls[0].before, WrapAll(ls[1..], e), ls[0].after, t);
      }
    }
  }

  lemma {:induction false} ChainsHas(es: seq<GoError>, i: nat)
    requires i < |es|
    ensures forall x :: x in Chain(es[i]) ==> x in Chains(es)
  {
    if i > 0 {
      ChainsHas(es[1..], i - 1);
    }
  }

  /** Wrapping never hides an error: everything reachable before is reachable after. */
  lemma {:induction false} WrappingKeepsChain(ls: seq<Layer>, e: GoError)
    ensures forall x :: x in Chain(e) ==> x in Chain(WrapAll(ls, e))
  {
    if ls != [] {
      var inner := WrapAll(ls[1..], e);
      WrappingKeepsChain(ls[1..], e);
      if ls[0].Among? {
        var all := ls[0].before + [inner] + ls[0].after;
        assert all[|ls[0].before|] == inner;
        ChainsHas(all, |ls[0].before|);
      }
    }
  }
}
