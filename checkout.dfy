/**
 * `handleCheckOut`: validate the request, score the end-of-shift state, compare it with
 * the latest check-in (or a fixed default when there is none), flag risk escalation
 * and attach recommendations. Also `handleGetCheckInData`, which returns that baseline.
 */
module CheckOut {
  import opened Wrappers
  import opened Http
  import opened Scoring
  import opened Recommendations
  import opened CheckInData
  import CheckIn

  /** The request body; an absent field is `None`. */
  datatype CheckOutRequest = CheckOutRequest(
    sessionId: Option<string>,
    checkinSessionId: Option<string>,
    biometrics: Option<Biometrics>,
    fasAnswers: Option<seq<int>>,
    psqiAnswers: Option<seq<int>>,
    paAnswer: Option<int>,
    timestamp: Option<string>)
  {
    /** `session_id` truthy, biometrics and both answer arrays present, `pa_answer` not undefined. */
    predicate HasRequiredFields()
    {
      Truthy(sessionId) && biometrics.Some? && fasAnswers.Some? && psqiAnswers.Some? && paAnswer.Some?
    }
  }

  // ---------------------------------------------------------------------------
  // Validation
  // ---------------------------------------------------------------------------

  /** The checks the handler makes, in its order: fields, FAS answers, PSQI answers. */
  function ValidateCheckOutAsWritten(req: CheckOutRequest): Outcome<Failure>
  {
    if !req.HasRequiredFields() then Fail(BadRequest(MissingRequiredFields))
    else if !ValidFasAnswers(req.fasAnswers.value) then Fail(BadRequest(InvalidFasAnswers))
    else if !ValidPsqiAnswers(req.psqiAnswers.value) then Fail(BadRequest(InvalidPsqiAnswers))
    else Pass
  }

  /** The same checks followed by the pa range check that the questionnaire handler makes. */
  function ValidateCheckOut(req: CheckOutRequest): Outcome<Failure>
  {
    match ValidateCheckOutAsWritten(req)
    case Fail(e) => Fail(e)
    case Pass =>
      if req.paAnswer.value < 0 || req.paAnswer.value > 3 then Fail(BadRequest(InvalidPaAnswer)) else Pass
  }

  // ---------------------------------------------------------------------------
  // The check-in baseline
  // ---------------------------------------------------------------------------

  const DefaultCheckInSessionId := "sess-checkin-2025-01-15-user123"
  const DefaultCheckInScores := SubScores(1, 2, 0, 1, 1, 0, 1)
  const DefaultCheckInTotal := 6
  const DefaultCheckInClassification := "Mild Fatigue"
  const DefaultCheckInBiometrics := Biometrics(120.0, 80.0, 72.0, 36.8, "Neutral")

  /** What `getCheckInData` returns: the stored record, or the fixed default snapshot. */
  datatype CheckInSnapshot = Latest(record: CheckInRecord) | Fallback(sessionId: string)
  {
    function Scores(): SubScores
    {
      match this
      case Latest(r) => r.scores
      case Fallback(_) => DefaultCheckInScores
    }

    function TotalScore(): int
    {
      match this
      case Latest(r) => r.totalScore
      case Fallback(_) => DefaultCheckInTotal
    }

    function Classification(): string
    {
      match this
      case Latest(r) => r.classification
      case Fallback(_) => DefaultCheckInClassification
    }

    function Biometrics(): Biometrics
    {
      match this
      case Latest(r) => r.biometrics
      case Fallback(_) => DefaultCheckInBiometrics
    }

    predicate Consistent()
    {
      TotalScore() == Total(Scores()) && Classification() == Classify(TotalScore()).Label()
    }
  }

  /** `getCheckInData`: the stored record if there is one, else the default under the given or default id. */
  function GetCheckInData(latest: Option<CheckInRecord>, checkinSessionId: Option<string>): CheckInSnapshot
  {
    if latest.Some? then Latest(latest.value)
    else Fallback(if Truthy(checkinSessionId) then checkinSessionId.value else DefaultCheckInSessionId)
  }

  /** The default snapshot adds up: its seven parts total 6, which is "Mild Fatigue". */
  lemma DefaultSnapshotConsistent(id: string)
    ensures Fallback(id).Consistent()
  {
  }

  /** A stored record that is consistent gives a consistent snapshot; with no record the default is used. */
  lemma SnapshotSource(latest: Option<CheckInRecord>, checkinSessionId: Option<string>)
    ensures latest.Some? ==> GetCheckInData(latest, checkinSessionId).Scores() == latest.value.scores
    ensures latest.Some? ==> GetCheckInData(latest, checkinSessionId).TotalScore() == latest.value.totalScore
    ensures latest.None? ==> GetCheckInData(latest, checkinSessionId).TotalScore() == 6
    ensures latest.Some? && latest.value.Consistent() ==> GetCheckInData(latest, checkinSessionId).Consistent()
    ensures latest.None? ==> GetCheckInData(latest, checkinSessionId).Consistent()
    ensures latest.Some? ==> GetCheckInData(latest, checkinSessionId).Biometrics() == latest.value.biometrics
    ensures latest.None? ==> GetCheckInData(latest, checkinSessionId).Biometrics() == DefaultCheckInBiometrics
  {
  }

  // ---------------------------------------------------------------------------
  // Scoring and comparison
  // ---------------------------------------------------------------------------

  datatype Comparison = Comparison(
    deltaTotal: int,
    deltaComponents: SubScores,
    riskEscalation: bool,
    recommendations: seq<string>)

  datatype CheckOutResponse = CheckOutResponse(
    scores: SubScores,
    totalScore: int,
    classification: string,
    deltaFromCheckin: int,
    comparison: Comparison)

  /** Each component of `after` minus the same component of `before`. */
  function ComponentDeltas(after: SubScores, before: SubScores): (d: SubScores)
    ensures Total(d) == Total(after) - Total(before)
  {
    SubScores(after.fas - before.fas, after.psqi - before.psqi, after.pa - before.pa,
      after.bp - before.bp, after.hr - before.hr, after.temp - before.temp, after.face - before.face)
  }

  /** Escalate on a rise of 3 or more, on any critical component, or on "Severe Fatigue". */
  predicate RiskEscalation(scores: SubScores, classification: string, deltaTotal: int)
  {
    deltaTotal >= 3 || scores.AnyCritical() || classification == SevereFatigue.Label()
  }

  /** The seven check-out sub-scores of a request that has all its fields. */
  ghost function CheckOutScores(req: CheckOutRequest): SubScores
    requires req.HasRequiredFields()
  {
    var bio := BiometricSeverity(req.biometrics.value);
    SubScores(FasScore(req.fasAnswers.value), PsqiScore(req.psqiAnswers.value), req.paAnswer.value,
      bio.bp, bio.hr, bio.temp, bio.face)
  }

  /** The response for validated scores against a baseline. */
  function CompareWithCheckIn(scores: SubScores, baseline: CheckInSnapshot): CheckOutResponse
  {
    var total := Total(scores);
    var classification := Classify(total).Label();
    var delta := total - baseline.TotalScore();
    CheckOutResponse(scores, total, classification, delta,
      Comparison(delta, ComponentDeltas(scores, baseline.Scores()), RiskEscalation(scores, classification, delta),
        CheckOutRecommendations(scores, total, delta)))
  }

  /** What the handler as written answers: pa is taken as given, whatever its value. */
  ghost function CheckOutOutcomeAsWritten(req: CheckOutRequest, latest: Option<CheckInRecord>): Result<CheckOutResponse, Failure>
  {
    match ValidateCheckOutAsWritten(req)
    case Fail(e) => Failure(e)
    case Pass => Success(CompareWithCheckIn(CheckOutScores(req), GetCheckInData(latest, req.checkinSessionId)))
  }

  /** What the handler answers once pa is range-checked like the questionnaire's. */
  ghost function CheckOutOutcome(req: CheckOutRequest, latest: Option<CheckInRecord>): Result<CheckOutResponse, Failure>
  {
    match ValidateCheckOut(req)
    case Fail(e) => Failure(e)
    case Pass => Success(CompareWithCheckIn(CheckOutScores(req), GetCheckInData(latest, req.checkinSessionId)))
  }

  /**
   * `handleCheckOut`, with the pa range check. It reads the check-in slot and changes
   * nothing.
   */
  method HandleCheckOut(store: CheckInStore, req: CheckOutRequest) returns (res: Result<CheckOutResponse, Failure>)
    ensures res == CheckOutOutcome(req, store.latest)
  {
    if !Truthy(req.sessionId) || req.biometrics.None? || req.fasAnswers.None? || req.psqiAnswers.None? || req.paAnswer.None? {
      return Failure(BadRequest(MissingRequiredFields));
    }
    var fasAnswers, psqiAnswers, paAnswer := req.fasAnswers.value, req.psqiAnswers.value, req.paAnswer.value;

    if |fasAnswers| != 3 || exists i | 0 <= i < |fasAnswers| :: fasAnswers[i] < 1 || fasAnswers[i] > 5 {
      return Failure(BadRequest(InvalidFasAnswers));
    }
    if |psqiAnswers| != 4 || exists i | 0 <= i < |psqiAnswers| :: psqiAnswers[i] < 1 || psqiAnswers[i] > 4 {
      return Failure(BadRequest(InvalidPsqiAnswers));
    }
    if paAnswer < 0 || paAnswer > 3 {
      return Failure(BadRequest(InvalidPaAnswer));
    }

    var latest := store.GetLatestCheckIn();
    var checkInData := GetCheckInData(latest, req.checkinSessionId);
    var scores := ScoreCheckOut(req);
    var response := CompareCheckOut(scores, checkInData);
    res := Success(response);
    assert ValidateCheckOut(req) == Pass;
  }

  /** The seven check-out sub-scores: FAS, PSQI, pa as given, and the four biometric parts. */
  method ScoreCheckOut(req: CheckOutRequest) returns (scores: SubScores)
    requires req.HasRequiredFields()
    ensures scores == CheckOutScores(req)
  {
    var biometricScores := CalculateBiometricScores(req.biometrics.value);
    scores := SubScores(FasScore(req.fasAnswers.value), PsqiScore(req.psqiAnswers.value), req.paAnswer.value,
      biometricScores.bp, biometricScores.hr, biometricScores.temp, biometricScores.face);
  }

  /**
   * The comparison half of `handleCheckOut`: total, classification, delta against the
   * baseline, component deltas, escalation and recommendations.
   */
  method CompareCheckOut(scores: SubScores, checkInData: CheckInSnapshot) returns (response: CheckOutResponse)
    ensures response == CompareWithCheckIn(scores, checkInData)
  {
    var totalScore := Total(scores);
    var classification := Classify(totalScore).Label();
    var deltaTotal := totalScore - checkInData.TotalScore();
    var deltaComponents := ComponentDeltas(scores, checkInData.Scores());
    var riskEscalation := deltaTotal >= 3 || scores.AnyCritical() || classification == SevereFatigue.Label();
    var recommendations := GenerateRecommendations(scores, totalScore, deltaTotal);

    var comparison := Comparison(deltaTotal, deltaComponents, riskEscalation, recommendations);
    response := CheckOutResponse(scores, totalScore, classification, deltaTotal, comparison);
  }

  /** `handleGetCheckInData`: the stored check-in, or the default snapshot under the default id. */
  method HandleGetCheckInData(store: CheckInStore) returns (data: CheckInSnapshot)
    ensures store.latest.Some? ==> data == Latest(store.latest.value)
    ensures store.latest.None? ==> data == Fallback(DefaultCheckInSessionId) && data.TotalScore() == 6
    ensures store.latest.None? ==> data.Scores() == SubScores(1, 2, 0, 1, 1, 0, 1) && data.Classification() == MildFatigue.Label()
    ensures data.Biometrics() == if store.latest.Some? then store.latest.value.biometrics else Biometrics(120.0, 80.0, 72.0, 36.8, "Neutral")
  {
    var latest := store.GetLatestCheckIn();
    data := GetCheckInData(latest, None);
  }

  // ---------------------------------------------------------------------------
  // Properties
  // ---------------------------------------------------------------------------

  /**
   * Rejections come before any scoring, in order: missing fields, bad FAS answers, bad
   * PSQI answers, pa outside [0, 3]; a request passing all four is scored.
   */
  lemma CheckOutRejections(req: CheckOutRequest, latest: Option<CheckInRecord>)
    ensures CheckOutOutcome(req, latest) == Failure(BadRequest(MissingRequiredFields)) <==> !req.HasRequiredFields()
    ensures CheckOutOutcome(req, latest) == Failure(BadRequest(InvalidFasAnswers)) <==>
      req.HasRequiredFields() && !ValidFasAnswers(req.fasAnswers.value)
    ensures CheckOutOutcome(req, latest) == Failure(BadRequest(InvalidPsqiAnswers)) <==>
      req.HasRequiredFields() && ValidFasAnswers(req.fasAnswers.value) && !ValidPsqiAnswers(req.psqiAnswers.value)
    ensures CheckOutOutcome(req, latest) == Failure(BadRequest(InvalidPaAnswer)) <==>
      && req.HasRequiredFields() && ValidFasAnswers(req.fasAnswers.value) && ValidPsqiAnswers(req.psqiAnswers.value)
      && !(0 <= req.paAnswer.value <= 3)
    ensures CheckOutOutcome(req, latest).Success? <==>
      && req.HasRequiredFields() && ValidFasAnswers(req.fasAnswers.value) && ValidPsqiAnswers(req.psqiAnswers.value)
      && 0 <= req.paAnswer.value <= 3
  {
  }

  /**
   * An accepted check-out: every sub-score in [0, 3], the total their sum in [0, 21],
   * the classification the total's class, the delta the total minus the baseline's,
   * each component delta the component difference, and a non-empty recommendation list.
   */
  lemma CheckOutResponseFacts(req: CheckOutRequest, latest: Option<CheckInRecord>)
    requires CheckOutOutcome(req, latest).Success?
    ensures var r, base := CheckOutOutcome(req, latest).value, GetCheckInData(latest, req.checkinSessionId);
      && r.scores.InRange()
      && r.scores.fas == FasScore(req.fasAnswers.value) && r.scores.psqi == PsqiScore(req.psqiAnswers.value)
      && r.scores.pa == req.paAnswer.value
      && BiometricScores(r.scores.bp, r.scores.hr, r.scores.temp, r.scores.face) == BiometricSeverity(req.biometrics.value)
      && r.totalScore == r.scores.fas + r.scores.psqi + r.scores.pa + r.scores.bp + r.scores.hr + r.scores.temp + r.scores.face
      && 0 <= r.totalScore <= 21
      && r.classification == Classify(r.totalScore).Label()
      && r.deltaFromCheckin == r.comparison.deltaTotal == r.totalScore - base.TotalScore()
      && r.comparison.deltaComponents.fas == r.scores.fas - base.Scores().fas
      && r.comparison.deltaComponents.psqi == r.scores.psqi - base.Scores().psqi
      && r.comparison.deltaComponents.pa == r.scores.pa - base.Scores().pa
      && r.comparison.deltaComponents.bp == r.scores.bp - base.Scores().bp
      && r.comparison.deltaComponents.hr == r.scores.hr - base.Scores().hr
      && r.comparison.deltaComponents.temp == r.scores.temp - base.Scores().temp
      && r.comparison.deltaComponents.face == r.scores.face - base.Scores().face
      && 1 <= |r.comparison.recommendations| <= 8
  {
    var scores, base := CheckOutScores(req), GetCheckInData(latest, req.checkinSessionId);
    var r := CheckOutOutcome(req, latest).value;
    assert r == CompareWithCheckIn(scores, base);
    assert scores.InRange() by {
      assert ValidateCheckOut(req) == Pass;
    }
    TotalBounds(scores);
    CheckOutRecommendationsShape(r.scores, r.totalScore, r.comparison.deltaTotal);
  }

  /** Against a consistent baseline the total delta is the sum of the seven component deltas. */
  lemma DeltaIsSumOfComponentDeltas(req: CheckOutRequest, latest: Option<CheckInRecord>)
    requires CheckOutOutcome(req, latest).Success?
    requires latest.Some? ==> latest.value.Consistent()
    ensures var c := CheckOutOutcome(req, latest).value.comparison;
      c.deltaTotal == Total(c.deltaComponents)
  {
    SnapshotSource(latest, req.checkinSessionId);
  }

  /** Seven sub-scores in [0, 3] reaching 15 must include a 3 (seven 2s make only 14). */
  lemma SevereImpliesCritical(s: SubScores)
    requires s.InRange()
    requires Total(s) >= 15
    ensures s.AnyCritical()
  {
    AnyCriticalFields(s);
  }

  /**
   * Escalation holds exactly when the total rose by 3 or more, some component is 3, or
   * the total is 15 or more; for an accepted request the last clause is implied by the
   * second.
   */
  lemma EscalationCriteria(req: CheckOutRequest, latest: Option<CheckInRecord>)
    requires CheckOutOutcome(req, latest).Success?
    ensures var r := CheckOutOutcome(req, latest).value; var s := r.scores;
      && (r.comparison.riskEscalation <==>
           r.comparison.deltaTotal >= 3
           || s.fas >= 3 || s.psqi >= 3 || s.pa >= 3 || s.bp >= 3 || s.hr >= 3 || s.temp >= 3 || s.face >= 3
           || r.totalScore >= 15)
      && (r.comparison.riskEscalation <==> r.comparison.deltaTotal >= 3 || s.AnyCritical())
  {
    var r := CheckOutOutcome(req, latest).value;
    AnyCriticalFields(r.scores);
    LabelsDistinct(Classify(r.totalScore), SevereFatigue);
    if r.totalScore >= 15 {
      SevereImpliesCritical(r.scores);
    }
  }

  /**
   * The check-in and check-out handlers score the same biometrics the same way: the bp,
   * hr, temp and face parts of a check-in record equal those of a check-out response
   * for the same measurements.
   */
  lemma CheckInAndCheckOutAgree(inReq: CheckIn.CheckInRequest, outReq: CheckOutRequest, latest: Option<CheckInRecord>)
    requires CheckIn.CheckInOutcome(inReq).Success?
    requires CheckOutOutcome(outReq, latest).Success?
    requires outReq.biometrics.value == inReq.biometrics.value.Typed()
    ensures var a, b := CheckIn.CheckInOutcome(inReq).value.scores, CheckOutOutcome(outReq, latest).value.scores;
      a.bp == b.bp && a.hr == b.hr && a.temp == b.temp && a.face == b.face
  {
  }

  /**
   * The handler as written takes pa without a range check: all-maximal answers, vitals
   * in the critical bands and pa = 4 are accepted, and the response total is 22, beyond
   * the 0..21 scale.
   */
  lemma UncheckedPaExceedsScale()
    ensures var req := CheckOutRequest(Some("s"), None, Some(CriticalVitals), Some([5, 5, 5]), Some([4, 4, 4, 4]), Some(4), Some("t"));
      && ValidateCheckOutAsWritten(req) == Pass
      && CheckOutOutcomeAsWritten(req, None).Success?
      && CheckOutOutcomeAsWritten(req, None).value.totalScore == 22
      && !CheckOutOutcomeAsWritten(req, None).value.scores.InRange()
      && ValidateCheckOut(req) == Fail(BadRequest(InvalidPaAnswer))
  {
    var req := CheckOutRequest(Some("s"), None, Some(CriticalVitals), Some([5, 5, 5]), Some([4, 4, 4, 4]), Some(4), Some("t"));
    MaximalAnswers();
    CriticalVitalsScore();
    assert CheckOutScores(req) == SubScores(3, 3, 4, 3, 3, 3, 3);
  }

  /** Vitals in every critical band. */
  const CriticalVitals := Biometrics(185.0, 70.0, 125.0, 38.6, "Severe Fatigue")

  lemma CriticalVitalsScore()
    ensures BiometricSeverity(CriticalVitals) == BiometricScores(3, 3, 3, 3)
  {
    BiometricExamples();
    SevereFaceExamples();
  }

  /** The largest allowed answers are valid and reach the top FAS and PSQI bands. */
  lemma MaximalAnswers()
    ensures ValidFasAnswers([5, 5, 5]) && FasScore([5, 5, 5]) == 3
    ensures ValidPsqiAnswers([4, 4, 4, 4]) && PsqiScore([4, 4, 4, 4]) == 3
  {
    assert [5, 5, 5][..2] == [5, 5] && [5, 5][..1] == [5] && [5][..0] == [];
    QuestionnaireExamples();
  }

  /**
   * The handler as written and the corrected one answer alike unless pa is given and
   * lies outside [0, 3]: they differ only in the pa range check.
   */
  lemma AsWrittenAgreesOnScale(req: CheckOutRequest, latest: Option<CheckInRecord>)
    requires req.paAnswer.Some? ==> 0 <= req.paAnswer.value <= 3
    ensures CheckOutOutcomeAsWritten(req, latest) == CheckOutOutcome(req, latest)
  {
  }

  /** With the range check in place, every accepted total lies on the 0..21 scale. */
  lemma ValidatedTotalOnScale(req: CheckOutRequest, latest: Option<CheckInRecord>)
    requires ValidateCheckOut(req) == Pass
    ensures CheckOutOutcome(req, latest).Success?
    ensures CheckOutOutcome(req, latest).value.scores.InRange()
    ensures 0 <= CheckOutOutcome(req, latest).value.totalScore <= 21
  {
  }
}
