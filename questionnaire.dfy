/**
 * `handleQuestionnaireSubmit`: validate the answers, score FAS, PSQI and physical
 * activity, classify the questionnaire-only total and attach recommendations.
 */
module Questionnaire {
  import opened Wrappers
  import opened Http
  import opened Scoring
  import opened Recommendations

  /** The request body; an absent field is `None`. */
  datatype QuestionnaireRequest = QuestionnaireRequest(
    sessionId: Option<string>,
    fasAnswers: Option<seq<int>>,
    psqiAnswers: Option<seq<int>>,
    paAnswer: Option<int>,
    timestamp: Option<string>)
  {
    /** `session_id` truthy, both answer arrays present, `pa_answer` not undefined. */
    predicate HasRequiredFields()
    {
      Truthy(sessionId) && fasAnswers.Some? && psqiAnswers.Some? && paAnswer.Some?
    }
  }

  datatype QuestionnaireResponse = QuestionnaireResponse(
    scores: QuestionnaireScores,
    totalScore: int,
    classification: string,
    recommendations: seq<string>)

  /** The four checks, in the order the handler makes them. */
  function ValidateQuestionnaire(req: QuestionnaireRequest): Outcome<Failure>
  {
    if !req.HasRequiredFields() then Fail(BadRequest(MissingRequiredFields))
    else if !ValidFasAnswers(req.fasAnswers.value) then Fail(BadRequest(InvalidFasAnswers))
    else if !ValidPsqiAnswers(req.psqiAnswers.value) then Fail(BadRequest(InvalidPsqiAnswers))
    else if req.paAnswer.value < 0 || req.paAnswer.value > 3 then Fail(BadRequest(InvalidPaAnswer))
    else Pass
  }

  /** What the handler answers for a request. */
  function QuestionnaireOutcome(req: QuestionnaireRequest): Result<QuestionnaireResponse, Failure>
  {
    match ValidateQuestionnaire(req)
    case Fail(e) => Failure(e)
    case Pass =>
      var scores := QuestionnaireScores(FasScore(req.fasAnswers.value), PsqiScore(req.psqiAnswers.value), req.paAnswer.value);
      var total := scores.fas + scores.psqi + scores.pa;
      Success(QuestionnaireResponse(scores, total, Classify(total).Label(), QuestionnaireRecommendations(scores, total)))
  }

  /** `handleQuestionnaireSubmit`. */
  method HandleQuestionnaireSubmit(req: QuestionnaireRequest) returns (res: Result<QuestionnaireResponse, Failure>)
    ensures res == QuestionnaireOutcome(req)
  {
    if !Truthy(req.sessionId) || req.fasAnswers.None? || req.psqiAnswers.None? || req.paAnswer.None? {
      return Failure(BadRequest(MissingRequiredFields));
    }
    var fasAnswers, psqiAnswers, paAnswer := req.fasAnswers.value, req.psqiAnswers.value, req.paAnswer.value;

    if |fasAnswers| != 3 || exists i | 0 <= i < |fasAnswers| :: fasAnswers[i] < 1 || fasAnswers[i] > 5 {
      return Failure(BadRequest(InvalidFasAnswers));
    }
    if |psqiAnswers| != 4 || exists i | 0 <= i < |psqiAnswers| :: psqiAnswers[i] < 1 || psqiAnswers[i] > 4 {
      return Failure(BadRequest(InvalidPsqiAnswers));
    }
    if paAnswer < 0 || paAnswer > 3 {
      return Failure(BadRequest(InvalidPaAnswer));
    }

    var scores := QuestionnaireScores(FasScore(fasAnswers), PsqiScore(psqiAnswers), paAnswer);
    var currentTotal := scores.fas + scores.psqi + scores.pa;
    var classification := Classify(currentTotal).Label();
    var recommendations := GetRecommendations(scores, currentTotal);
    res := Success(QuestionnaireResponse(scores, currentTotal, classification, recommendations));
  }

  /**
   * The request is accepted exactly when all fields are present, there are three FAS
   * answers in [1, 5], four PSQI answers in [1, 4], and the pa answer is in [0, 3];
   * otherwise the first failing check names the error.
   */
  lemma QuestionnaireRejections(req: QuestionnaireRequest)
    ensures QuestionnaireOutcome(req).Success? <==>
      && req.HasRequiredFields()
      && ValidFasAnswers(req.fasAnswers.value) && ValidPsqiAnswers(req.psqiAnswers.value)
      && 0 <= req.paAnswer.value <= 3
    ensures QuestionnaireOutcome(req) == Failure(BadRequest(MissingRequiredFields)) <==> !req.HasRequiredFields()
    ensures QuestionnaireOutcome(req) == Failure(BadRequest(InvalidFasAnswers)) <==>
      req.HasRequiredFields() && !ValidFasAnswers(req.fasAnswers.value)
    ensures QuestionnaireOutcome(req) == Failure(BadRequest(InvalidPsqiAnswers)) <==>
      req.HasRequiredFields() && ValidFasAnswers(req.fasAnswers.value) && !ValidPsqiAnswers(req.psqiAnswers.value)
    ensures QuestionnaireOutcome(req) == Failure(BadRequest(InvalidPaAnswer)) <==>
      && req.HasRequiredFields() && ValidFasAnswers(req.fasAnswers.value) && ValidPsqiAnswers(req.psqiAnswers.value)
      && !(0 <= req.paAnswer.value <= 3)
  {
  }

  /**
   * An accepted questionnaire passes pa through unchanged, totals fas + psqi + pa in
   * [0, 9], is therefore only ever "Fit" or "Mild Fatigue", and carries between two
   * and six recommendations.
   */
  lemma QuestionnaireResponseFacts(req: QuestionnaireRequest)
    requires QuestionnaireOutcome(req).Success?
    ensures var r := QuestionnaireOutcome(req).value;
      && r.scores.pa == req.paAnswer.value
      && 0 <= r.scores.fas <= 3 && 0 <= r.scores.psqi <= 3
      && r.totalScore == r.scores.fas + r.scores.psqi + r.scores.pa
      && 0 <= r.totalScore <= 9
      && (r.classification == Fit.Label() || r.classification == MildFatigue.Label())
      && 2 <= |r.recommendations| <= 6
  {
    var r := QuestionnaireOutcome(req).value;
    QuestionnaireRecommendationsShape(r.scores, r.totalScore);
  }
}
