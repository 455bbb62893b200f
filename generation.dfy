/** What the agents get back from the generation backend, and the retry
    policy that the `tenacity` decorators put around each request. */
module Generation {

  import opened Optional

  /** A value produced by `json.loads`. Numbers are integers here. */
  datatype Json =
    | Null
    | Bool(b: bool)
    | Num(n: int)
    | Str(s: string)
    | Arr(items: seq<Json>)
    | Obj(fields: map<string, Json>)

  /** How one request (`generate_content` followed by `json.loads`) ends:
      a parsed reply, together with `str()` of that parsed value as Python
      renders it; a `ClientError` from the backend; or any other exception
      (a server error, a reply that is not JSON, ...). */
  datatype Call = Replied(parsed: Json, shown: string) | ClientError | OtherError

  /** `stop_after_attempt(maxAttempts)`, and whether only `ClientError` is retried
      (`retry_if_exception_type(ClientError)`) or every exception is. */
  datatype RetryPolicy = RetryPolicy(maxAttempts: nat, onlyClientErrors: bool)

  /** agents/patcher.py: three attempts, retrying `ClientError` only. */
  const PatcherRetry := RetryPolicy(3, true)
  /** agents/scanner.py: five attempts, retrying any exception. */
  const ScannerRetry := RetryPolicy(5, false)

  /** A failed request after which the policy asks for another attempt. */
  predicate Retryable(p: RetryPolicy, c: Call)
  {
    !c.Replied? && (c.ClientError? || !p.onlyClientErrors)
  }

  /** The reply (if any) and how many requests were made. When `reply` is
      `None` the decorated call raised. */
  datatype Generated = Generated(reply: Option<(Json, string)>, attempts: nat)

  /** The decorated call, given what each successive request would end in,
      starting at request number `i` (0-based). */
  function GenerateFrom(p: RetryPolicy, calls: seq<Call>, i: nat): (g: Generated)
    requires i < p.maxAttempts <= |calls|
    ensures i < g.attempts <= p.maxAttempts
    ensures g.reply.Some? <==> calls[g.attempts - 1].Replied?
    ensures g.reply.Some? ==>
              g.reply.value == (calls[g.attempts - 1].parsed, calls[g.attempts - 1].shown)
    ensures forall j :: i <= j < g.attempts - 1 ==> Retryable(p, calls[j])
    ensures g.attempts < p.maxAttempts ==> !Retryable(p, calls[g.attempts - 1])
    decreases p.maxAttempts - i
  {
    match calls[i]
    case Replied(parsed, shown) => Generated(Some((parsed, shown)), i + 1)
    case _ =>
      if Retryable(p, calls[i]) && i + 1 < p.maxAttempts then GenerateFrom(p, calls, i + 1)
      else Generated(None, i + 1)
  }

  /** The whole decorated call: at most `maxAttempts` requests; it stops at the
      first reply, at the first error the policy does not retry, or when the
      attempts are used up, and every request before the last one failed with
      a retryable error. */
  function Generate(p: RetryPolicy, calls: seq<Call>): (g: Generated)
    requires 1 <= p.maxAttempts <= |calls|
    ensures 1 <= g.attempts <= p.maxAttempts
    ensures g.reply.Some? <==> calls[g.attempts - 1].Replied?
    ensures g.reply.Some? ==>
              g.reply.value == (calls[g.attempts - 1].parsed, calls[g.attempts - 1].shown)
    ensures forall j :: 0 <= j < g.attempts - 1 ==> Retryable(p, calls[j])
    ensures g.attempts < p.maxAttempts ==> !Retryable(p, calls[g.attempts - 1])
  {
    GenerateFrom(p, calls, 0)
  }

  /** With the patcher's policy any error other than `ClientError` ends the call
      at once, and no more than three requests are ever made. */
  lemma PatcherStopsOnOtherErrors(calls: seq<Call>)
    requires 3 <= |calls|
    ensures Generate(PatcherRetry, calls).attempts <= 3
    ensures forall j :: 0 <= j < Generate(PatcherRetry, calls).attempts - 1 ==> calls[j].ClientError?
    ensures calls[0].OtherError? ==> Generate(PatcherRetry, calls) == Generated(None, 1)
  {
  }

  /** With the scanner's policy the call only fails when all five requests failed. */
  lemma ScannerFailsOnlyAfterFiveErrors(calls: seq<Call>)
    requires 5 <= |calls|
    ensures var g := Generate(ScannerRetry, calls);
      g.reply.None? <==> g.attempts == 5 && forall j :: 0 <= j < 5 ==> !calls[j].Replied?
  {
  }
}
