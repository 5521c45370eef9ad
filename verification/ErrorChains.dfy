/** Structured errors and chain matching, over single-unwrap chains. */
module ErrorChains {
  import opened Basics

  /** `Foreign` is any error of another package; `id` is its identity, `inner` what it unwraps to. */
  datatype Error =
    | Structured(code: string, message: string, op: string, inner: Option<Error>)
    | Foreign(id: nat, text: string, inner: Option<Error>)

  datatype Target = StructuredTarget(code: string, message: string) | ForeignTarget(id: nat)

  function Text(e: Error): string {
    match e
    case Foreign(_, text, _) => text
    case Structured(_, message, op, inner) =>
      (if op != "" then op + ": " else "") + message + (if inner.Some? then ": " + Text(inner.value) else "")
  }

  function New(message: string): Error {
    Structured("UNKNOWN", message, "", None)
  }

  function WithOp(e: Error, op: string): Error
    requires e.Structured?
  {
    e.(op := op)
  }

  function WithCode(e: Error, code: string): Error
    requires e.Structured?
  {
    e.(code := code)
  }

  function Wrap(base: Option<Error>, underlying: Option<Error>): Option<Error>
    requires base.Some? ==> base.value.Structured?
  {
    match (base, underlying)
    case (None, None) => None
    case (None, Some(u)) => Some(Structured("UNKNOWN", Text(u), "", underlying))
    case (Some(_), None) => base
    case (Some(b), Some(_)) => Some(Structured(b.code, b.message, b.op, underlying))
  }

  /** The method `Error.Is`: compares code and message, or descends into the wrapped error. */
  function MethodIs(e: Error, target: Target): bool
    requires e.Structured?
    decreases e, 0
  {
    if target.StructuredTarget? then
      e.code == target.code && e.message == target.message
    else
      ErrorsIs(e.inner, target)
  }

  function Unwrap(e: Error): (inner: Option<Error>)
    ensures inner.Some? ==> inner.value < e
  {
    e.inner
  }

  /** The standard library's `errors.Is`: identity, then the error's own Is method, then unwrap. */
  function ErrorsIs(err: Option<Error>, target: Target): bool
    decreases err, 1
  {
    match err
    case None => false
    case Some(e) =>
      || (e.Foreign? && target.ForeignTarget? && e.id == target.id)
      || (e.Structured? && MethodIs(e, target))
      || ErrorsIs(Unwrap(e), target)
  }

  function Nodes(err: Option<Error>): seq<Error>
    decreases err
  {
    match err
    case None => []
    case Some(e) => [e] + Nodes(Unwrap(e))
  }

  predicate NodeMatches(e: Error, target: Target) {
    match target
    case StructuredTarget(code, message) => e.Structured? && e.code == code && e.message == message
    case ForeignTarget(id) => e.Foreign? && e.id == id
  }

  ghost predicate SomeNodeMatches(err: Option<Error>, target: Target) {
    exists n :: n in Nodes(err) && NodeMatches(n, target)
  }

  /** The descent inside the outer unwrap finds nothing the outer unwrap would miss. */
  lemma {:induction false} MatchingIsMembership(err: Option<Error>, target: Target)
    ensures ErrorsIs(err, target) <==> SomeNodeMatches(err, target)
    decreases err
  {
    match err
    case None =>
    case Some(e) =>
      MatchingIsMembership(Unwrap(e), target);
      var rest := Nodes(Unwrap(e));
      assert Nodes(err) == [e] + rest;
      assert forall n :: n in Nodes(err) <==> n == e || n in rest;
      assert ErrorsIs(err, target) <==> NodeMatches(e, target) || ErrorsIs(Unwrap(e), target);
  }

  const ERR_NOT_FOUND := New("resource not found")
  const ERR_CONNECTION_FAILED := New("connection failed")
  const ERR_TIMEOUT := New("operation timed out")
  const ERR_OPERATION_FAILED := New("operation failed")
  const ERR_POSTGRESQL_NOT_FOUND := WithCode(New("postgresql instance not found"), "POSTGRESQL_NOT_FOUND")
  const ERR_POSTGRESQL_CONNECTION_FAILED := WithCode(New("postgresql connection failed"),
                                                     "POSTGRESQL_CONNECTION_FAILED")
  const ERR_VAULT_UNAVAILABLE := WithCode(New("vault unavailable"), "VAULT_UNAVAILABLE")
  const ERR_VAULT_SECRET_NOT_FOUND := WithCode(New("vault secret not found"), "VAULT_SECRET_NOT_FOUND")
  const ERR_KUBERNETES_RESOURCE_NOT_FOUND := WithCode(New("kubernetes resource not found"), "K8S_RESOURCE_NOT_FOUND")

  function Sentinel(e: Error): Target
    requires e.Structured?
  {
    StructuredTarget(e.code, e.message)
  }

  datatype Class = NotFoundClass | ConnectionClass | RetryableClass

  predicate IsNotFound(err: Option<Error>) {
    || ErrorsIs(err, Sentinel(ERR_NOT_FOUND))
    || ErrorsIs(err, Sentinel(ERR_POSTGRESQL_NOT_FOUND))
    || ErrorsIs(err, Sentinel(ERR_VAULT_SECRET_NOT_FOUND))
    || ErrorsIs(err, Sentinel(ERR_KUBERNETES_RESOURCE_NOT_FOUND))
  }

  predicate IsConnectionError(err: Option<Error>) {
    || ErrorsIs(err, Sentinel(ERR_CONNECTION_FAILED))
    || ErrorsIs(err, Sentinel(ERR_POSTGRESQL_CONNECTION_FAILED))
    || ErrorsIs(err, Sentinel(ERR_VAULT_UNAVAILABLE))
  }

  predicate IsRetryable(err: Option<Error>) {
    || IsConnectionError(err)
    || ErrorsIs(err, Sentinel(ERR_TIMEOUT))
    || ErrorsIs(err, Sentinel(ERR_VAULT_UNAVAILABLE))
  }

  predicate InClass(err: Option<Error>, c: Class) {
    match c
    case NotFoundClass => IsNotFound(err)
    case ConnectionClass => IsConnectionError(err)
    case RetryableClass => IsRetryable(err)
  }

  /** The (code, message) pairs that put an error in a class by themselves. */
  function Members(c: Class): set<(string, string)> {
    match c
    case NotFoundClass =>
      {("UNKNOWN", "resource not found"), ("POSTGRESQL_NOT_FOUND", "postgresql instance not found"),
       ("VAULT_SECRET_NOT_FOUND", "vault secret not found"),
       ("K8S_RESOURCE_NOT_FOUND", "kubernetes resource not found")}
    case ConnectionClass =>
      {("UNKNOWN", "connection failed"), ("POSTGRESQL_CONNECTION_FAILED", "postgresql connection failed"),
       ("VAULT_UNAVAILABLE", "vault unavailable")}
    case RetryableClass =>
      {("UNKNOWN", "connection failed"), ("POSTGRESQL_CONNECTION_FAILED", "postgresql connection failed"),
       ("VAULT_UNAVAILABLE", "vault unavailable"), ("UNKNOWN", "operation timed out")}
  }

  /** An error is in a class exactly when some structured node of its chain carries one of the class's pairs. */
  lemma ClassIsChainMembership(err: Option<Error>, c: Class)
    ensures InClass(err, c) <==> exists n :: n in Nodes(err) && n.Structured? && (n.code, n.message) in Members(c)
  {
    hide ErrorsIs, Nodes;
    forall t: Target { MatchingIsMembership(err, t); }
    if InClass(err, c) {
      var t :| ErrorsIs(err, t) && t.StructuredTarget? && (t.code, t.message) in Members(c);
      var n :| n in Nodes(err) && NodeMatches(n, t);
      assert n.Structured? && (n.code, n.message) in Members(c);
    }
    if n :| n in Nodes(err) && n.Structured? && (n.code, n.message) in Members(c) {
      assert NodeMatches(n, StructuredTarget(n.code, n.message));
      assert ErrorsIs(err, StructuredTarget(n.code, n.message));
    }
  }

  /** Adding an operation name changes no classification; every connection error is retryable. */
  lemma WithOpKeepsClass(e: Error, op: string, c: Class)
    requires e.Structured?
    ensures InClass(Some(WithOp(e, op)), c) <==> InClass(Some(e), c)
    ensures InClass(Some(e), ConnectionClass) ==> InClass(Some(e), RetryableClass)
  {
    ClassIsChainMembership(Some(WithOp(e, op)), c);
    ClassIsChainMembership(Some(e), c);
    var rest := Nodes(e.inner);
    assert Nodes(Some(e)) == [e] + rest && Nodes(Some(WithOp(e, op))) == [WithOp(e, op)] + rest;
    assert forall n :: n in Nodes(Some(e)) <==> n == e || n in rest;
    assert forall n :: n in Nodes(Some(WithOp(e, op))) <==> n == WithOp(e, op) || n in rest;
  }

  /**
   Wrapping classifies by the base's own pair or by the wrapped error; whatever the base itself wrapped is dropped.
   */
  lemma WrapClass(base: Error, underlying: Error, c: Class)
    requires base.Structured?
    ensures InClass(Wrap(Some(base), Some(underlying)), c)
            <==> (base.code, base.message) in Members(c) || InClass(Some(underlying), c)
  {
    var w := Wrap(Some(base), Some(underlying));
    ClassIsChainMembership(w, c);
    ClassIsChainMembership(Some(underlying), c);
    var rest := Nodes(Some(underlying));
    assert Nodes(w) == [w.value] + rest;
    assert forall n :: n in Nodes(w) <==> n == w.value || n in rest;
  }

  function WrapAll(bases: seq<Error>, err: Error): Error
    requires forall b :: b in bases ==> b.Structured?
  {
    if bases == [] then err else Wrap(Some(bases[0]), Some(WrapAll(bases[1..], err))).value
  }

  /** A stack of wraps: in the class exactly when a wrapping base or the wrapped error is. */
  lemma {:induction false} WrapStackClass(bases: seq<Error>, err: Error, c: Class)
    requires forall b :: b in bases ==> b.Structured?
    ensures InClass(Some(WrapAll(bases, err)), c)
            <==> (exists b :: b in bases && b.Structured? && (b.code, b.message) in Members(c)) || InClass(Some(err), c)
  {
    if bases != [] {
      WrapStackClass(bases[1..], err, c);
      WrapClass(bases[0], WrapAll(bases[1..], err), c);
      assert forall b :: b in bases <==> b == bases[0] || b in bases[1..];
    }
  }

  /** A base that already wraps a timeout loses it when it is used to wrap another error. */
  lemma WrapDropsTheBaseChain()
    ensures var base := Wrap(Some(ERR_OPERATION_FAILED), Some(ERR_TIMEOUT));
            && IsRetryable(base)
            && !IsRetryable(Wrap(base, Some(Foreign(0, "eof", None))))
  {
    var base := Wrap(Some(ERR_OPERATION_FAILED), Some(ERR_TIMEOUT)).value;
    WrapClass(ERR_OPERATION_FAILED, ERR_TIMEOUT, RetryableClass);
    ClassIsChainMembership(Some(ERR_TIMEOUT), RetryableClass);
    assert ERR_TIMEOUT in Nodes(Some(ERR_TIMEOUT));
    WrapClass(base, Foreign(0, "eof", None), RetryableClass);
    ClassIsChainMembership(Some(Foreign(0, "eof", None)), RetryableClass);
    assert base.code == "UNKNOWN" && |base.message| == 16;
  }

  /** Nodes looked at by one `errors.Is` call when nothing matches. */
  function Visits(err: Option<Error>, target: Target): nat
    decreases err
  {
    match err
    case None => 0
    case Some(e) =>
      1 + Visits(Unwrap(e), target)
        + (if e.Structured? && target.ForeignTarget? then Visits(Unwrap(e), target) else 0)
  }

  /**
   The double descent costs 2^n - 1 visits on n structured errors for a foreign target, and n for a structured one.
   */
  lemma {:induction false} VisitCount(err: Option<Error>, target: Target)
    requires forall n :: n in Nodes(err) ==> n.Structured?
    ensures target.ForeignTarget? ==> Visits(err, target) == Pow2(|Nodes(err)|) - 1
    ensures target.StructuredTarget? ==> Visits(err, target) == |Nodes(err)|
    decreases err
  {
    if err.Some? {
      assert forall n :: n in Nodes(Unwrap(err.value)) ==> n in Nodes(err);
      assert err.value in Nodes(err);
      VisitCount(Unwrap(err.value), target);
    }
  }

  /** `errors.As` for *Error. */
  function AsError(err: Option<Error>): Option<Error>
    decreases err
  {
    match err
    case None => None
    case Some(e) => if e.Structured? then err else AsError(Unwrap(e))
  }

  /** It finds the first structured node, and only fails when there is none. */
  lemma {:induction false} AsErrorFindsTheFirst(err: Option<Error>)
    ensures AsError(err).None? ==> forall n :: n in Nodes(err) ==> n.Foreign?
    ensures AsError(err).Some? ==>
              exists i :: 0 <= i < |Nodes(err)| && Nodes(err)[i] == AsError(err).value && Nodes(err)[i].Structured?
                          && forall n :: n in Nodes(err)[..i] ==> n.Foreign?
    decreases err
  {
    match err
    case None =>
    case Some(e) =>
      var rest := Nodes(Unwrap(e));
      assert Nodes(err) == [e] + rest;
      if e.Structured? {
        assert Nodes(err)[0] == e && Nodes(err)[..0] == [];
      } else {
        AsErrorFindsTheFirst(Unwrap(e));
        if AsError(err).Some? {
          var i :| 0 <= i < |rest| && rest[i] == AsError(err).value && rest[i].Structured?
                   && forall n :: n in rest[..i] ==> n.Foreign?;
          assert Nodes(err)[i + 1] == rest[i] && Nodes(err)[..i + 1] == [e] + rest[..i];
        }
      }
  }
}
