/** The error hierarchy of the package and the way an error renders as text.
    Every error of the package derives from DiscordiaError; the few raised by
    the language or by validation libraries are kept as kinds of their own so
    that `except` clauses can be modelled by the subclass test `IsA`. */
module Exceptions {
  import opened Outcomes
  import opened Text

  datatype ErrorKind =
    | DiscordiaError
    | ConfigurationError
    | StateError
    | DiscordAPIError
    | EntityNotFoundError
    | ValidationError
    | CategoryNotFoundError
    | ChannelNotFoundError
    | ReconciliationError
    | DatabaseError
    | JSONLError
    | LLMAPIError
    /** Python's built-in ValueError, raised by the field validators (the
        validation library's own error is a ValueError too). */
    | ValueError
    /** Python's OverflowError, raised by date arithmetic past year 1 or
        year 9999. */
    | OverflowError
    /** Any exception raised by the remote workspace client. */
    | RemoteError

  /** The direct base class of each kind; None for the roots. */
  function Parent(k: ErrorKind): Option<ErrorKind>
  {
    match k
    case DiscordiaError => None
    case ValueError => None
    case OverflowError => None
    case RemoteError => None
    case EntityNotFoundError => Some(StateError)
    case CategoryNotFoundError => Some(EntityNotFoundError)
    case ChannelNotFoundError => Some(EntityNotFoundError)
    case _ => Some(DiscordiaError)
  }

  /** Depth in the hierarchy: a parent is always one level shallower. */
  function Depth(k: ErrorKind): nat
  {
    match k
    case DiscordiaError => 0
    case ValueError => 0
    case OverflowError => 0
    case RemoteError => 0
    case StateError => 1
    case EntityNotFoundError => 2
    case CategoryNotFoundError => 3
    case ChannelNotFoundError => 3
    case _ => 1
  }

  /** `issubclass(k, base)`: `base` is `k` or one of its ancestors, so an
      `except base` clause catches an error of kind `k`. */
  predicate IsA(k: ErrorKind, base: ErrorKind)
    decreases Depth(k)
  {
    k == base || (Parent(k).Some? && IsA(Parent(k).value, base))
  }

  /** The subclass relation is transitive. */
  lemma {:induction false} IsATransitive(a: ErrorKind, b: ErrorKind, c: ErrorKind)
    requires IsA(a, b) && IsA(b, c)
    ensures IsA(a, c)
    decreases Depth(a)
  {
    if a != b {
      IsATransitive(Parent(a).value, b, c);
    }
  }

  /** A kind and one of its proper ancestors are never each other's subclass:
      the hierarchy has no cycles. */
  lemma {:induction false} IsAAntisymmetric(a: ErrorKind, b: ErrorKind)
    requires IsA(a, b) && IsA(b, a)
    ensures a == b
    decreases Depth(a)
  {
    IsADepth(a, b);
    IsADepth(b, a);
  }

  lemma {:induction false} IsADepth(a: ErrorKind, b: ErrorKind)
    requires IsA(a, b)
    ensures Depth(b) <= Depth(a)
    ensures Depth(b) == Depth(a) ==> a == b
    decreases Depth(a)
  {
    if a != b {
      IsADepth(Parent(a).value, b);
    }
  }

  /** Every error kind the package defines is a DiscordiaError; the foreign
      kinds are not. */
  lemma {:induction false} PackageErrorsAreDiscordia(k: ErrorKind)
    ensures IsA(k, DiscordiaError) <==> (k != ValueError && k != OverflowError && k != RemoteError)
  {
    match k
    case CategoryNotFoundError =>
      assert IsA(EntityNotFoundError, DiscordiaError) by {
        assert IsA(StateError, DiscordiaError);
      }
    case ChannelNotFoundError =>
      assert IsA(EntityNotFoundError, DiscordiaError) by {
        assert IsA(StateError, DiscordiaError);
      }
    case _ =>
  }

  /** The not-found errors of the lookups are StateErrors, so a caller that
      handles StateError also handles them. */
  lemma NotFoundIsStateError(k: ErrorKind)
    requires k in {EntityNotFoundError, CategoryNotFoundError, ChannelNotFoundError}
    ensures IsA(k, StateError) && IsA(k, EntityNotFoundError)
  {
  }

  /** An exception value: its class, its message and, for the package's own
      errors, the optional exception it wraps. */
  datatype Error = Error(kind: ErrorKind, message: string, cause: Option<Error>)

  /** Builds a package error the way `DiscordiaError.__init__` does. */
  function Raise(kind: ErrorKind, message: string, cause: Option<Error> := None): Error
  {
    Error(kind, message, cause)
  }

  /** `str(e)`: a package error with a cause renders as
      "<message> (caused by: <str(cause)>)", anything else as its message.
      An exception instance is always truthy, so only a missing cause counts
      as absent. */
  function Str(e: Error): (r: string)
    ensures StartsWith(r, e.message)
    ensures r == e.message <==> (e.cause.None? || !IsA(e.kind, DiscordiaError))
  {
    if IsA(e.kind, DiscordiaError) && e.cause.Some? then
      e.message + " (caused by: " + Str(e.cause.value) + ")"
    else e.message
  }

  /** The rendering of a wrapped error shows the full rendering of its cause
      right after the wrapper's message. */
  lemma CauseShown(e: Error)
    requires IsA(e.kind, DiscordiaError) && e.cause.Some?
    ensures Contains(Str(e), Str(e.cause.value))
  {
    var r := Str(e);
    var at := |e.message| + |" (caused by: "|;
    assert r[at..at + |Str(e.cause.value)|] == Str(e.cause.value);
    ContainsAt(r, Str(e.cause.value), at);
  }
}
