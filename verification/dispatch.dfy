/**
 * The `/api/score` endpoint (`validate_sentence`): when a remote scorer
 * webhook is configured it is tried first; when none is configured, or the
 * remote call raises (timeout, non-2xx status, undecodable body), the local
 * scorer answers.
 *
 * The endpoint is declared with `response_model=AIResponse`, so FastAPI
 * checks whatever the handler returns against that schema after the handler
 * has returned, outside its `try`. A remote body that does not fit the
 * schema is therefore not a reason to fall back: the client gets a 500.
 *
 * The HTTP call is not modelled; its outcome is a parameter. The remote
 * payload is kept abstract (type parameter `P`), and whether it fits the
 * `AIResponse` schema is the parameter `conforms`.
 */
module Dispatch {
  import opened Wrappers
  import opened PyStr
  import opened Scorer

  /** What `client.post(...)` followed by `raise_for_status()` and `json()` did. */
  datatype RemoteOutcome<P> = Raised | Returned(payload: P)

  /**
   * The endpoint's answer: the remote body (as validated against
   * `AIResponse`), the local scorer's result, or the error status FastAPI
   * answers with when the remote body does not validate (500).
   */
  datatype Reply<P> =
    | Remote(payload: P)
    | Local(result: Result<ScoreResult, ScorerError>)
    | InvalidRemote(status: nat)

  /** `if N8N_SCORER_WEBHOOK:`: the variable is set and not the empty string. */
  predicate Configured(webhook: Option<string>) {
    webhook.Some? && webhook.value != ""
  }

  /**
   * The endpoint. `remote` is what the remote call would do; it is only
   * consulted when a webhook is configured. `conforms` says which bodies
   * validate as an `AIResponse`.
   */
  function ValidateSentence<P>(webhook: Option<string>, remote: RemoteOutcome<P>, conforms: P -> bool, data: Submission)
    : (r: Reply<P>)
    ensures r.Remote? <==> Configured(webhook) && remote.Returned? && conforms(remote.payload)
    ensures r.InvalidRemote? <==> Configured(webhook) && remote.Returned? && !conforms(remote.payload)
    ensures r.Local? <==> !Configured(webhook) || remote.Raised?
    ensures r.Remote? ==> r.payload == remote.payload
    ensures r.InvalidRemote? ==> r.status == 500
    ensures r.Local? ==> r.result == Evaluate(data)
  {
    if Configured(webhook) then
      match remote
      case Returned(payload) => if conforms(payload) then Remote(payload) else InvalidRemote(500)
      case Raised => Local(Evaluate(data))
    else
      Local(Evaluate(data))
  }

  /**
   * Without a configured webhook the remote outcome is irrelevant: the
   * answer is the same whatever the call would have done.
   */
  lemma UnconfiguredIgnoresRemote<P>(webhook: Option<string>, a: RemoteOutcome<P>, b: RemoteOutcome<P>,
                                     conforms: P -> bool, data: Submission)
    requires !Configured(webhook)
    ensures ValidateSentence(webhook, a, conforms, data) == ValidateSentence(webhook, b, conforms, data)
    ensures ValidateSentence(webhook, a, conforms, data) == Local(Evaluate(data))
  {
  }

  /**
   * A failed remote call and a missing webhook lead to the same answer:
   * the local scorer's result on the same submission.
   */
  lemma FallbackMatchesUnconfigured<P>(webhook: Option<string>, conforms: P -> bool, data: Submission)
    ensures ValidateSentence(webhook, Raised, conforms, data) == ValidateSentence<P>(None, Raised, conforms, data)
  {
  }

  /**
   * A remote body that does not fit the schema is not caught by the
   * fallback: the answer is the 500, never the local scorer's result, even
   * for a sentence the local scorer would have accepted.
   */
  lemma MisshapedRemoteHasNoFallback<P>(webhook: Option<string>, payload: P, conforms: P -> bool, data: Submission)
    requires Configured(webhook)
    requires !conforms(payload)
    ensures ValidateSentence(webhook, Returned(payload), conforms, data) == InvalidRemote(500)
    ensures ValidateSentence(webhook, Returned(payload), conforms, data) != ValidateSentence(webhook, Raised, conforms, data)
  {
  }

  /**
   * A successful remote call with a well-formed body is passed through even
   * for a blank sentence, which the local scorer would reject.
   */
  lemma RemoteAnswersBlankSentence<P>(webhook: Option<string>, payload: P, conforms: P -> bool, data: Submission)
    requires Configured(webhook)
    requires conforms(payload)
    requires AllSpace(data.sentence)
    ensures ValidateSentence(webhook, Returned(payload), conforms, data) == Remote(payload)
    ensures Evaluate(data).Failure?
  {
    StripEmpty(data.sentence);
  }

  /**
   * The endpoint answers with an error exactly when the remote body does not
   * validate, or when it fell back to the local scorer and the sentence is
   * blank. A rejected remote body is answered with 500, and a local error
   * is the 500 "Scorer service error".
   */
  lemma ErrorCases<P>(webhook: Option<string>, remote: RemoteOutcome<P>, conforms: P -> bool, data: Submission)
    ensures var r := ValidateSentence(webhook, remote, conforms, data);
            (r.InvalidRemote? || (r.Local? && r.result.Failure?)) <==>
              (Configured(webhook) && remote.Returned? && !conforms(remote.payload)) ||
              ((!Configured(webhook) || remote.Raised?) && AllSpace(data.sentence))
    ensures var r := ValidateSentence(webhook, remote, conforms, data);
            (r.InvalidRemote? ==> r.status == 500) &&
            (r.Local? && r.result.Failure? ==> r.result.error == ScorerError(500, "Scorer service error"))
  {
    StripEmpty(data.sentence);
  }
}
