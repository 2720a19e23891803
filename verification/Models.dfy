/** The values that the relay passes around: rules, retry settings, request
    snapshots, send outcomes and delivery results (internal/models/models.go). */
module Models {

  datatype Option<+T> = None | Some(value: T)

  type EmailId = string
  type DeliveryId = string
  type BatchId = string
  type Bytes = seq<char>

  /** A point in time, and a duration, in nanoseconds. */
  type Time = int
  type Duration = int

  const SECOND: Duration := 1_000_000_000

  /** The due time stored for finished rows: the largest int64. */
  const MAX_NANOS: Time := 9_223_372_036_854_775_807

  datatype EmailStatus = Received | Dropped | Delivered | PartialFailure | AllFailed | Refused

  datatype DeliveryStatus = Pending | InProgress | Success | Failed | Rejected | Error | Cancelled

  predicate Unfinished(st: DeliveryStatus) {
    st.Pending? || st.InProgress?
  }

  datatype DeliveryResult = DeliveryResult(
    status: DeliveryStatus,
    statusCode: int,
    error: string,
    body: string,
    attempts: nat)

  datatype RetryConfig = RetryConfig(
    maxRetries: int,
    initialWait: Duration,
    maxWait: Duration,
    timeout: Duration,
    retryOnTimeout: bool)

  /** A Go map keeps nil apart from empty; JSON with omitempty does not. */
  datatype Headers = NilHeaders | HeaderMap(entries: map<string, string>)

  datatype WebhookConfig = WebhookConfig(
    signingSecret: string,
    url: string,
    verb: string,
    headers: Headers,
    template: string,
    timeout: Option<int>,
    maxRetries: Option<int>,
    initialWait: Option<int>,
    maxWait: Option<int>,
    retryOnTimeout: Option<bool>)

  datatype Condition = Condition(field: string, pattern: string, header: string)

  /** A Go slice keeps nil apart from empty; JSON with omitempty does not. */
  datatype Conditions = NilConditions | ConditionList(items: seq<Condition>)

  datatype MatcherConfig = MatcherConfig(mode: string, conditions: Conditions)

  datatype Rule = Rule(name: string, matcher: MatcherConfig, webhook: WebhookConfig)

  function OrElse<T>(own: Option<T>, global: T): T {
    if own.Some? then own.value else global
  }

  function SecondsOrElse(own: Option<int>, global: Duration): Duration {
    if own.Some? then own.value * SECOND else global
  }

  /** The retry settings of one webhook: its own overrides, else the global ones. */
  function Effective(wh: WebhookConfig, global: RetryConfig): RetryConfig {
    RetryConfig(
      OrElse(wh.maxRetries, global.maxRetries),
      SecondsOrElse(wh.initialWait, global.initialWait),
      SecondsOrElse(wh.maxWait, global.maxWait),
      SecondsOrElse(wh.timeout, global.timeout),
      OrElse(wh.retryOnTimeout, global.retryOnTimeout))
  }

  /** What building the request body gave: the body, or the reason it failed. */
  datatype Payload = Built(bytes: Bytes) | Broken(reason: string)

  /** The durable request: everything a later send needs except the secret. */
  datatype Snapshot = Snapshot(
    rule: Rule,
    signed: bool,
    payload: Bytes,
    retry: RetryConfig,
    payloadError: string)

  /** The snapshot column: the encoded request, or the empty text of a finished row. */
  datatype Blob = Released | Encoded(snap: Snapshot)

  function TakeSnapshot(rule: Rule, global: RetryConfig, payload: Payload): Snapshot {
    Snapshot(
      rule.(webhook := rule.webhook.(signingSecret := "")),
      rule.webhook.signingSecret != "",
      if payload.Built? then payload.bytes else [],
      Effective(rule.webhook, global),
      if payload.Broken? then payload.reason else "")
  }

  /** How one HTTP request ended. A status outside 2xx carries its body; every other
      failure carries its text and whether it was a blocked address or a timeout. */
  datatype Outcome =
    | Answered(body: string)
    | BadStatus(code: int, body: string)
    | Transport(text: string, isPrivate: bool, isTimeout: bool)

  function Max(a: int, b: int): int {
    if a < b then b else a
  }

  function Min(a: int, b: int): int {
    if a < b then a else b
  }

  /** How many attempts an unfinished delivery may already have recorded. */
  function RetryBudget(retry: RetryConfig): nat {
    Max(0, retry.maxRetries)
  }
}
