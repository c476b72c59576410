/**
 * `handleCheckInSubmit`: validate the request, score the biometrics, build the record
 * (the questionnaire parts are 0 at check-in), store it as the latest check-in and
 * return it.
 */
module CheckIn {
  import opened Wrappers
  import opened Http
  import opened Scoring
  import opened CheckInData

  const InvalidBiometrics := "Invalid biometrics"

  /** A JSON value where a vital sign is expected. */
  datatype RawNumber = Finite(value: real) | NaN | NotANumber

  /** `typeof v === 'number' && !isNaN(v)`. */
  predicate IsNumber(v: RawNumber)
  {
    v.Finite?
  }

  /** The biometrics object as received; `faceLabel` is `None` when it is not a string. */
  datatype RawBiometrics = RawBiometrics(sbp: RawNumber, dbp: RawNumber, bpm: RawNumber, temp: RawNumber, faceLabel: Option<string>)
  {
    predicate WellTyped()
    {
      IsNumber(sbp) && IsNumber(dbp) && IsNumber(bpm) && IsNumber(temp) && faceLabel.Some?
    }

    function Typed(): (b: Biometrics)
      requires WellTyped()
      ensures b.sbp == sbp.value && b.dbp == dbp.value && b.bpm == bpm.value && b.temp == temp.value
      ensures b.faceLabel == faceLabel.value
    {
      Biometrics(sbp.value, dbp.value, bpm.value, temp.value, faceLabel.value)
    }
  }

  datatype CheckInRequest = CheckInRequest(sessionId: Option<string>, biometrics: Option<RawBiometrics>, timestamp: Option<string>)
  {
    /** `session_id`, `biometrics` and `timestamp` are all present and truthy. */
    predicate HasRequiredFields()
    {
      Truthy(sessionId) && biometrics.Some? && Truthy(timestamp)
    }
  }

  /** The record a valid check-in produces: questionnaire parts 0, biometric parts scored. */
  ghost function CheckInRecordFor(sessionId: string, timestamp: string, b: Biometrics): CheckInRecord
  {
    var bio := BiometricSeverity(b);
    var scores := SubScores(0, 0, 0, bio.bp, bio.hr, bio.temp, bio.face);
    var total := Total(scores);
    CheckInRecord(sessionId, timestamp, b, scores, total, Classify(total).Label())
  }

  /** What the handler answers: the two rejections in order, else the new record. */
  ghost function CheckInOutcome(req: CheckInRequest): Result<CheckInRecord, Failure>
  {
    if !req.HasRequiredFields() then Failure(BadRequest(MissingRequiredFields))
    else if !req.biometrics.value.WellTyped() then Failure(BadRequest(InvalidBiometrics))
    else Success(CheckInRecordFor(req.sessionId.value, req.timestamp.value, req.biometrics.value.Typed()))
  }

  /**
   * `handleCheckInSubmit`. On success the store holds exactly the returned record;
   * on either rejection the store is not written.
   */
  method HandleCheckInSubmit(store: CheckInStore, req: CheckInRequest) returns (res: Result<CheckInRecord, Failure>)
    modifies store
    ensures res == CheckInOutcome(req)
    ensures res.Success? ==> store.latest == Some(res.value)
    ensures res.Failure? ==> store.latest == old(store.latest)
  {
    if !Truthy(req.sessionId) || req.biometrics.None? || !Truthy(req.timestamp) {
      return Failure(BadRequest(MissingRequiredFields));
    }

    var raw := req.biometrics.value;
    if !IsNumber(raw.sbp) || !IsNumber(raw.dbp) || !IsNumber(raw.bpm) || !IsNumber(raw.temp) || raw.faceLabel.None? {
      return Failure(BadRequest(InvalidBiometrics));
    }

    var biometrics := Biometrics(raw.sbp.value, raw.dbp.value, raw.bpm.value, raw.temp.value, raw.faceLabel.value);
    var biometricScores := CalculateBiometricScores(biometrics);

    var scores := SubScores(0, 0, 0, biometricScores.bp, biometricScores.hr, biometricScores.temp, biometricScores.face);
    var total := Total(scores);
    var classification := Classify(total).Label();

    var record := CheckInRecord(req.sessionId.value, req.timestamp.value, biometrics, scores, total, classification);
    store.SetLatestCheckIn(record);
    res := Success(record);
  }

  /** Each rejection happens exactly when its check fails, and the first failing check wins. */
  lemma CheckInRejections(req: CheckInRequest)
    ensures CheckInOutcome(req) == Failure(BadRequest(MissingRequiredFields)) <==> !req.HasRequiredFields()
    ensures CheckInOutcome(req) == Failure(BadRequest(InvalidBiometrics)) <==>
      req.HasRequiredFields() && !req.biometrics.value.WellTyped()
    ensures CheckInOutcome(req).Success? <==> req.HasRequiredFields() && req.biometrics.value.WellTyped()
  {
  }

  /**
   * A check-in record has zero questionnaire parts, biometric parts in [0, 3], a
   * consistent total in [0, 12], and so is never classified "Severe Fatigue".
   */
  lemma CheckInRecordFacts(req: CheckInRequest)
    requires CheckInOutcome(req).Success?
    ensures var r := CheckInOutcome(req).value;
      && r.sessionId == req.sessionId.value && r.timestamp == req.timestamp.value
      && r.biometrics == req.biometrics.value.Typed()
      && r.scores.fas == 0 && r.scores.psqi == 0 && r.scores.pa == 0
      && r.scores.InRange()
      && r.Consistent()
      && 0 <= r.totalScore <= 12
      && r.classification != SevereFatigue.Label()
  {
    var r := CheckInOutcome(req).value;
    LabelsDistinct(Classify(r.totalScore), SevereFatigue);
  }

  /** The biometric parts of a check-in record are the reference biometric severities. */
  lemma CheckInBiometricParts(req: CheckInRequest)
    requires CheckInOutcome(req).Success?
    ensures var r := CheckInOutcome(req).value;
      BiometricScores(r.scores.bp, r.scores.hr, r.scores.temp, r.scores.face) == BiometricSeverity(r.biometrics)
  {
  }
}
