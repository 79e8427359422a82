/**
 * The package's error values (errors.go) and Go's error-chain semantics:
 * `Error()` text, `Unwrap()` and `errors.Is` against a sentinel.
 */
module Errors {
  import opened Base

  /** The sixteen sentinel errors declared with `errors.New`. */
  datatype Kind =
    | ProviderNotFound | ModelNotFound | MissingRole | MissingBackstory | MissingGoal
    | MissingPrompt | MissingAPIKey | MissingEndpoint | TooManyArgs | NilTask
    | CompletionFailed | ToolCallFailed | ChainInterrupted | MaxToolRoundsExceeded
    | InvalidConfig | ResponseTooLarge

  /** The text each sentinel was created with. */
  function KindText(k: Kind): string
  {
    match k
    case ProviderNotFound => "provider does not exist"
    case ModelNotFound => "model does not exist for the selected provider"
    case MissingRole => "agent Role is required (use WithRole())"
    case MissingBackstory => "agent Backstory is required (use WithBackstory())"
    case MissingGoal => "agent Goal is required (use WithGoal())"
    case MissingPrompt => "user prompt is required (use WithUserPrompt())"
    case MissingAPIKey => "API key not provided"
    case MissingEndpoint => "endpoint not provided"
    case TooManyArgs => "too many arguments: only one optional context argument is allowed"
    case NilTask => "task function is nil"
    case CompletionFailed => "completion request failed"
    case ToolCallFailed => "tool call execution failed"
    case ChainInterrupted => "chain interrupted by task error"
    case MaxToolRoundsExceeded => "maximum tool call rounds exceeded"
    case InvalidConfig => "invalid LLM configuration"
    case ResponseTooLarge => "response body exceeds maximum allowed size"
  }

  /**
   * An error value as the package builds them:
   * - Sentinel(k): the package-level value itself (`return ErrMissingPrompt`);
   * - Annotated(k, d): `fmt.Errorf("%w: d", Errk)`;
   * - Prefixed(p, e): `fmt.Errorf("p%w", e)`, wrapping an arbitrary error;
   * - Plain(t): an error with no chain (`errors.New`, a `%v`-only format, a context error);
   * - Retryable(e, status): a `*retryableError` (retry.go:20-23).
   */
  datatype Error =
    | Sentinel(kind: Kind)
    | Annotated(kind: Kind, detail: string)
    | Prefixed(prefix: string, inner: Error)
    | Plain(text: string)
    | Retryable(inner: Error, status: int)

  /** `err.Error()`; for a retryableError it is the inner error's text (retry.go:25). */
  function Message(e: Error): string
  {
    match e
    case Sentinel(k) => KindText(k)
    case Annotated(k, d) => KindText(k) + ": " + d
    case Prefixed(p, inner) => p + Message(inner)
    case Plain(t) => t
    case Retryable(inner, _) => Message(inner)
  }

  /** `errors.Unwrap(err)`; a retryableError unwraps to its inner error (retry.go:26). */
  function Unwrap(e: Error): Option<Error>
  {
    match e
    case Sentinel(_) => None
    case Annotated(k, _) => Some(Sentinel(k))
    case Prefixed(_, inner) => Some(inner)
    case Plain(_) => None
    case Retryable(inner, _) => Some(inner)
  }

  /** `errors.Is(err, Errk)`: some error on the Unwrap chain is the sentinel itself. */
  predicate Is(e: Error, k: Kind)
  {
    match e
    case Sentinel(k') => k' == k
    case Annotated(k', _) => k' == k
    case Prefixed(_, inner) => Is(inner, k)
    case Plain(_) => false
    case Retryable(inner, _) => Is(inner, k)
  }

  /** Every error on the Unwrap chain of `e`, starting with `e`. */
  function Chain(e: Error): (c: seq<Error>)
    ensures |c| >= 1 && c[0] == e
  {
    match e
    case Sentinel(_) => [e]
    case Annotated(k, _) => [e, Sentinel(k)]
    case Prefixed(_, inner) => [e] + Chain(inner)
    case Plain(_) => [e]
    case Retryable(inner, _) => [e] + Chain(inner)
  }

  /** Chain follows Unwrap: each element's successor is what it unwraps to. */
  lemma {:induction false} ChainFollowsUnwrap(e: Error, i: nat)
    requires i < |Chain(e)|
    ensures Unwrap(Chain(e)[i]) == (if i + 1 < |Chain(e)| then Some(Chain(e)[i + 1]) else None)
  {
    match e
    case Sentinel(_) =>
    case Annotated(_, _) =>
    case Prefixed(_, inner) =>
      if i > 0 { ChainFollowsUnwrap(inner, i - 1); }
    case Plain(_) =>
    case Retryable(inner, _) =>
      if i > 0 { ChainFollowsUnwrap(inner, i - 1); }
  }

  /** `Is` is exactly Go's definition: the sentinel occurs on the Unwrap chain. */
  lemma {:induction false} IsMeansOnChain(e: Error, k: Kind)
    ensures Is(e, k) <==> Sentinel(k) in Chain(e)
  {
    match e
    case Sentinel(_) =>
    case Annotated(_, _) =>
    case Prefixed(_, inner) =>
      IsMeansOnChain(inner, k);
    case Plain(_) =>
    case Retryable(inner, _) =>
      IsMeansOnChain(inner, k);
  }

  /**
   * The retryableError wrapper is transparent: same text, and `errors.Is` sees
   * through it, so `errors.Is(err, ErrCompletionFailed)` survives (retry_test.go:91-93).
   */
  lemma RetryableTransparent(inner: Error, status: int, k: Kind)
    ensures Message(Retryable(inner, status)) == Message(inner)
    ensures Unwrap(Retryable(inner, status)) == Some(inner)
    ensures Is(Retryable(inner, status), k) <==> Is(inner, k)
  {
  }

  /** A `%w` annotation is recognised as its sentinel and as no other. */
  lemma AnnotatedIs(k: Kind, d: string, k': Kind)
    ensures Is(Annotated(k, d), k') <==> k == k'
    ensures Message(Annotated(k, d)) == KindText(k) + ": " + d
  {
  }

  /** `ctx.Err()` of a done context: context.Canceled or context.DeadlineExceeded. */
  datatype ContextError = Canceled | DeadlineExceeded

  /** The error value `ctx.Err()` returns: a plain error outside the package's sentinels. */
  function ContextErr(c: ContextError): Error
  {
    Plain(if c == Canceled then "context canceled" else "context deadline exceeded")
  }

  /** A context error is none of the package's sentinels. */
  lemma ContextErrIsNoSentinel(c: ContextError, k: Kind)
    ensures !Is(ContextErr(c), k)
    ensures Message(ContextErr(c)) != ""
  {
  }
}
