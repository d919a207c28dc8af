/** The catch blocks of the process-image handlers: an upstream error is turned into one
    HTTP status and message, the first matching condition deciding. */
module ErrorClassifier {
  import opened JsValues
  import opened Schema
  import opened Priority

  /** What the catch block reads from a thrown error: `error.error.type`, `error.error.code`,
      `error.status` and `error.error.message`. A field the error lacks is `None`. */
  datatype UpstreamError = UpstreamError(
    kind: Option<string>,
    code: Option<string>,
    status: Option<int>,
    message: Option<string>)

  /** An `Error` the handler throws itself (empty description, missing URL): it carries none
      of the fields the classifier looks at. */
  const PlainError := UpstreamError(None, None, None, None)

  const QuotaExceeded := ErrorResponse(402, "OpenAI API quota exceeded. Please try again later.")
  const RateLimited := ErrorResponse(429, "Too many requests. Please try again later.")
  const BillingLimitReached := ErrorResponse(402, "API billing limit reached. Please try again later.")
  const ServiceMisconfigured := ErrorResponse(500, "API configuration error. Please try again later.")
  const AnalysisUnavailable := ErrorResponse(402, "Image analysis service unavailable. Please try again later.")
  const Unknown := ErrorResponse(500, "Failed to process image. Please try again.")

  predicate IsQuota(e: UpstreamError) { e.kind == Some("insufficient_quota") }
  predicate IsRateLimit(e: UpstreamError) { e.status == Some(429) }
  predicate IsBillingLimit(e: UpstreamError) { e.code == Some("billing_hard_limit_reached") }
  predicate IsModelMissing(e: UpstreamError) { e.code == Some("model_not_found") }
  predicate IsCreditBalance(e: UpstreamError) {
    e.status == Some(400) && e.message.Some? && Contains(e.message.value, "credit balance")
  }

  /** The five-condition chain of api/process-image.ts and api/process-image.js. */
  function Classify(e: UpstreamError): (r: Response)
    ensures r.status in {402, 429, 500} && r.body.ErrorBody?
    ensures r == Unknown <==>
      !IsQuota(e) && !IsRateLimit(e) && !IsBillingLimit(e) && !IsModelMissing(e) && !IsCreditBalance(e)
    ensures r.status == 429 <==> !IsQuota(e) && IsRateLimit(e)
  {
    if IsQuota(e) then QuotaExceeded
    else if IsRateLimit(e) then RateLimited
    else if IsBillingLimit(e) then BillingLimitReached
    else if IsModelMissing(e) then ServiceMisconfigured
    else if IsCreditBalance(e) then AnalysisUnavailable
    else Unknown
  }

  /** The two-condition chain of server/routes.ts. */
  function ClassifyReduced(e: UpstreamError): (r: Response)
    ensures r in {QuotaExceeded, RateLimited, Unknown}
    ensures r == QuotaExceeded <==> IsQuota(e)
  {
    if IsQuota(e) then QuotaExceeded
    else if IsRateLimit(e) then RateLimited
    else Unknown
  }

  /** The conditions of the full chain as a priority table. */
  const FullRules: seq<Rule<UpstreamError, Response>> := [
    Rule(IsQuota, QuotaExceeded),
    Rule(IsRateLimit, RateLimited),
    Rule(IsBillingLimit, BillingLimitReached),
    Rule(IsModelMissing, ServiceMisconfigured),
    Rule(IsCreditBalance, AnalysisUnavailable)
  ]

  /** The conditions of the reduced chain: the first two rows of the full table. */
  const ReducedRules: seq<Rule<UpstreamError, Response>> := FullRules[..2]

  /** The if-chain is the first-match reading of its table. */
  lemma ClassifyIsFirstMatch(e: UpstreamError)
    ensures Classify(e) == FirstMatch(FullRules, e, Unknown)
  {
    if IsQuota(e) {
      FirstMatchPicksEarliest(FullRules, e, Unknown, 0);
    } else if IsRateLimit(e) {
      FirstMatchPicksEarliest(FullRules, e, Unknown, 1);
    } else if IsBillingLimit(e) {
      FirstMatchPicksEarliest(FullRules, e, Unknown, 2);
    } else if IsModelMissing(e) {
      FirstMatchPicksEarliest(FullRules, e, Unknown, 3);
    } else if IsCreditBalance(e) {
      FirstMatchPicksEarliest(FullRules, e, Unknown, 4);
    } else {
      FirstMatchFallsThrough(FullRules, e, Unknown);
    }
  }

  lemma ClassifyReducedIsFirstMatch(e: UpstreamError)
    ensures ClassifyReduced(e) == FirstMatch(ReducedRules, e, Unknown)
  {
    if IsQuota(e) {
      FirstMatchPicksEarliest(ReducedRules, e, Unknown, 0);
    } else if IsRateLimit(e) {
      FirstMatchPicksEarliest(ReducedRules, e, Unknown, 1);
    } else {
      FirstMatchFallsThrough(ReducedRules, e, Unknown);
    }
  }

  /** The reduced chain agrees with the full one on quota and rate-limit errors and reports
      every other error, billing and missing-model included, as the generic failure. */
  lemma ReducedAgreesOnSharedRules(e: UpstreamError)
    ensures Classify(e) in {QuotaExceeded, RateLimited} ==> ClassifyReduced(e) == Classify(e)
    ensures Classify(e) !in {QuotaExceeded, RateLimited} ==> ClassifyReduced(e) == Unknown
  {
  }

  /** Priority in action: a rate-limited error whose code says the billing limit was reached
      is reported as a rate limit. */
  lemma RateLimitOutranksBilling(e: UpstreamError)
    requires IsRateLimit(e) && IsBillingLimit(e) && !IsQuota(e)
    ensures Classify(e) == RateLimited
  {
  }

  /** An error the handler throws itself is reported as the generic failure by both chains. */
  lemma PlainErrorIsUnknown()
    ensures Classify(PlainError) == Unknown && ClassifyReduced(PlainError) == Unknown
  {
  }
}
